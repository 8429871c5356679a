/** taylor.go, first half: the rows of the Taylor-series expansion of order
 *  m-1 in n variables. A row is n base-m digits, most significant first;
 *  newTaylor walks the row indices 0 .. m^n - 1 and keeps the rows whose
 *  digit sum is below m, jumping over runs of rows that cannot qualify. */
module Taylor {
  import opened Text

  // ---------------------------------------------------------------------
  // Arithmetic

  /** Ipow (taylor.go:86-92): a to the power b, and 1 when b <= 0. */
  function Ipow(a: int, b: int): int
    decreases b
  {
    if b <= 0 then 1 else a * Ipow(a, b - 1)
  }

  lemma {:induction false} IpowPositive(m: int, k: int)
    requires m >= 1
    ensures Ipow(m, k) >= 1
    decreases k
  {
    if k > 0 {
      IpowPositive(m, k - 1);
      MulMono(1, m, Ipow(m, k - 1));
    }
  }

  /** m^(a+b) = m^a * m^b. */
  lemma {:induction false} IpowAdd(m: int, a: int, b: int)
    requires a >= 0 && b >= 0
    ensures Ipow(m, a + b) == Ipow(m, a) * Ipow(m, b)
    decreases a
  {
    if a > 0 {
      IpowAdd(m, a - 1, b);
      assert Ipow(m, a + b) == m * (Ipow(m, a - 1) * Ipow(m, b));
      assert m * (Ipow(m, a - 1) * Ipow(m, b)) == (m * Ipow(m, a - 1)) * Ipow(m, b);
    }
  }

  lemma DivBounds(x: int, w: int)
    requires x >= 0 && w > 0
    ensures 0 <= x / w && (x / w) * w <= x < (x / w) * w + w
  {
    var q := x / w;
    assert q * w + x % w == x;
    assert 0 <= x % w < w;
    assert -1 * w < q * w + w;
    MulCancel(-1, q + 1, w);
  }

  /** Sum (taylor.go:111-117). */
  function Sum(xs: seq<int>): int
    decreases |xs|
  {
    if xs == [] then 0 else xs[0] + Sum(xs[1..])
  }

  lemma {:induction false} SumAppend(a: seq<int>, b: seq<int>)
    ensures Sum(a + b) == Sum(a) + Sum(b)
    decreases |a|
  {
    if a != [] {
      SumAppend(a[1..], b);
      assert (a + b)[1..] == a[1..] + b;
    } else {
      assert a + b == b;
    }
  }

  // ---------------------------------------------------------------------
  // Base-m digit rows

  predicate IsDigits(row: seq<int>, m: int) {
    forall k :: 0 <= k < |row| ==> 0 <= row[k] < m
  }

  /** The value of a row read as base-m digits, most significant first. */
  function Value(row: seq<int>, m: int): int
    decreases |row|
  {
    if row == [] then 0 else row[0] * Ipow(m, |row| - 1) + Value(row[1..], m)
  }

  lemma {:induction false} ValueAppend(a: seq<int>, b: seq<int>, m: int)
    ensures Value(a + b, m) == Value(a, m) * Ipow(m, |b|) + Value(b, m)
    decreases |a|
  {
    if a == [] {
      assert a + b == b;
    } else {
      ValueAppend(a[1..], b, m);
      assert (a + b)[1..] == a[1..] + b;
      IpowAdd(m, |a| - 1, |b|);
      var x := Ipow(m, |a| - 1);
      var y := Ipow(m, |b|);
      assert a[0] * (x * y) + Value(a[1..], m) * y == (a[0] * x + Value(a[1..], m)) * y;
    }
  }

  /** A row of digits has a value in [0, m^|row|). */
  lemma {:induction false} ValueBound(row: seq<int>, m: int)
    requires m >= 1 && IsDigits(row, m)
    ensures 0 <= Value(row, m) < Ipow(m, |row|)
    decreases |row|
  {
    if row != [] {
      ValueBound(row[1..], m);
      var x := Ipow(m, |row| - 1);
      IpowPositive(m, |row| - 1);
      MulMono(row[0], m - 1, x);
      MulMono(0, row[0], x);
      assert Ipow(m, |row|) == m * x;
    }
  }

  /** Two digit rows of one length with one value are equal. */
  lemma {:induction false} DigitsUnique(a: seq<int>, b: seq<int>, m: int)
    requires m >= 1 && IsDigits(a, m) && IsDigits(b, m) && |a| == |b|
    requires Value(a, m) == Value(b, m)
    ensures a == b
    decreases |a|
  {
    if a != [] {
      var x := Ipow(m, |a| - 1);
      IpowPositive(m, |a| - 1);
      ValueBound(a[1..], m);
      ValueBound(b[1..], m);
      assert a[0] * x + Value(a[1..], m) == b[0] * x + Value(b[1..], m);
      assert a[0] * x < (b[0] + 1) * x;
      assert b[0] * x < (a[0] + 1) * x;
      MulCancel(a[0], b[0] + 1, x);
      MulCancel(b[0], a[0] + 1, x);
      DigitsUnique(a[1..], b[1..], m);
      assert a == [a[0]] + a[1..] && b == [b[0]] + b[1..];
    }
  }

  /** The k digits the loop of Row produces from x, most significant first. */
  function Digits(x: int, k: int, m: int): (r: seq<int>)
    requires m >= 1
    ensures |r| == if k <= 0 then 0 else k
    decreases k
  {
    if k <= 0 then []
    else
      IpowPositive(m, k - 1);
      var w := Ipow(m, k - 1);
      var d := Quo(x, w);
      [d] + Digits(x - d * w, k - 1, m)
  }

  /** Row (taylor.go:99-108) produces the base-m digits of its index. */
  lemma {:induction false} DigitsValue(x: int, k: int, m: int)
    requires m >= 1 && k >= 0 && 0 <= x < Ipow(m, k)
    ensures IsDigits(Digits(x, k, m), m) && Value(Digits(x, k, m), m) == x
    decreases k
  {
    if k > 0 {
      IpowPositive(m, k - 1);
      var w := Ipow(m, k - 1);
      var d := x / w;
      DivBounds(x, w);
      assert x < m * w;
      MulCancel(d, m, w);
      DigitsValue(x - d * w, k - 1, m);
      var r := Digits(x, k, m);
      assert r[1..] == Digits(x - d * w, k - 1, m);
    }
  }

  /** Row (taylor.go:99-108). */
  method Row(index: int, n: int, m: int) returns (ret: seq<int>)
    requires m >= 1
    ensures ret == Digits(index, n, m)
  {
    ret := [];
    var idx := index;
    var i := n - 1;
    while i >= 0
      invariant i <= n - 1
      invariant ret + Digits(idx, i + 1, m) == Digits(index, n, m)
      decreases i + 1
    {
      IpowPositive(m, i);
      var ni := Ipow(m, i);
      var di := Quo(idx, ni);
      ret := ret + [di];
      idx := idx - di * ni;
      i := i - 1;
    }
  }

  // ---------------------------------------------------------------------
  // NextRow

  /** The last position below i+1 holding a positive entry, or -1. */
  function LastPos(row: seq<int>, i: int): (p: int)
    requires i < |row|
    ensures p == -1 || (0 <= p <= i && row[p] > 0)
    ensures forall t :: p < t <= i && 0 <= t ==> row[t] <= 0
    decreases i + 1
  {
    if i < 0 then -1 else if row[i] > 0 then i else LastPos(row, i - 1)
  }

  /** The row after the first loop of NextRow: the last positive entry
   *  among the first n becomes 0 and the entry before it gains 1. */
  function Bumped(row: seq<int>, n: int): seq<int>
    requires n <= |row|
  {
    var p := LastPos(row, n - 1);
    if p < 0 then row
    else if p > 0 then row[p := 0][p - 1 := row[p - 1] + 1]
    else row[p := 0]
  }

  /** The base-m value of the last n entries, as the second loop of
   *  NextRow sums it. */
  function TailValue(row: seq<int>, n: int, m: int): int
    requires n <= |row|
  {
    if n <= 0 then 0 else Value(row[|row| - n..], m)
  }

  /** NextRow (taylor.go:122-137): rewrites row in place and returns the
   *  value of the new row. */
  method NextRow(row: array<int>, n: int, m: int) returns (index: int)
    requires n <= row.Length
    modifies row
    ensures row[..] == Bumped(old(row[..]), n)
    ensures index == TailValue(row[..], n, m)
  {
    ghost var before := row[..];
    var i := n - 1;
    while i >= 0
      invariant i <= n - 1 && row[..] == before
      invariant LastPos(before, n - 1) == LastPos(before, i)
      decreases i + 1
    {
      if row[i] > 0 {
        BumpedAt(before, n, i);
        row[i] := 0;
        if i > 0 {
          row[i - 1] := row[i - 1] + 1;
        }
        break;
      }
      i := i - 1;
    }
    ghost var after := row[..];
    assert after == Bumped(before, n);
    index := 0;
    i := n - 1;
    while i >= 0
      invariant i <= n - 1 && (n > 0 ==> -1 <= i) && (n <= 0 ==> i == n - 1)
      invariant row[..] == after
      invariant index == Partial(after, n, i, m)
      decreases i + 1
    {
      index := index + row[row.Length - i - 1] * Ipow(m, i);
      i := i - 1;
    }
    if n > 0 {
      PartialValue(after, n, m);
    }
  }

  /** The entry NextRow's first loop stops at is the one Bumped changes. */
  lemma BumpedAt(row: seq<int>, n: int, i: int)
    requires n <= |row| && 0 <= i <= n - 1 && row[i] > 0 && LastPos(row, n - 1) == LastPos(row, i)
    ensures Bumped(row, n) == if i > 0 then row[i := 0][i - 1 := row[i - 1] + 1] else row[i := 0]
  {
  }

  /** What the second loop of NextRow has added up once it is down to i:
   *  the digits at distances n-1 .. i+1 from the end, each times m^distance. */
  function Partial(row: seq<int>, n: int, i: int, m: int): int
    requires n <= |row| && (i >= -1 || i >= n - 1)
    decreases n - i
  {
    if i >= n - 1 then 0
    else Partial(row, n, i + 1, m) + row[|row| - i - 2] * Ipow(m, i + 1)
  }

  lemma {:induction false} PartialSuffix(row: seq<int>, n: int, i: int, m: int)
    requires n <= |row| && -1 <= i <= n - 1
    ensures Partial(row, n, i, m) + Value(row[|row| - 1 - i..], m) == Value(row[|row| - n..], m)
    decreases n - i
  {
    if i < n - 1 {
      PartialSuffix(row, n, i + 1, m);
      var L := |row|;
      assert row[L - 2 - i..][1..] == row[L - 1 - i..];
    }
  }

  /** The second loop of NextRow computes the value of the last n entries. */
  lemma PartialValue(row: seq<int>, n: int, m: int)
    requires n <= |row|
    ensures Partial(row, n, -1, m) == TailValue(row, n, m)
  {
    if n > 0 {
      PartialSuffix(row, n, -1, m);
      assert row[|row|..] == [];
    }
  }

  predicate AllZero(z: seq<int>) {
    forall t :: 0 <= t < |z| ==> z[t] == 0
  }

  lemma SumAllZero(z: seq<int>)
    requires AllZero(z)
    ensures Sum(z) == 0 && forall m :: Value(z, m) == 0
    decreases |z|
  {
    if z != [] {
      SumAllZero(z[1..]);
    }
  }

  lemma {:induction false} SumNonneg(z: seq<int>)
    requires forall t :: 0 <= t < |z| ==> z[t] >= 0
    ensures Sum(z) >= 0
    decreases |z|
  {
    if z != [] {
      SumNonneg(z[1..]);
    }
  }

  /** The first digit of the digits of s is at least c when s >= c * w. */
  lemma LeadingDigit(s: int, k: int, m: int, c: int)
    requires m >= 1 && k >= 1 && 0 <= s && c * Ipow(m, k - 1) <= s
    ensures Digits(s, k, m)[0] >= c
  {
    IpowPositive(m, k - 1);
    var w := Ipow(m, k - 1);
    DivBounds(s, w);
    MulCancel(c, s / w + 1, w);
  }

  /** A row of digits with digit sum at least m has its last positive
   *  entry after the first position. */
  lemma LastPositiveLate(row: seq<int>, m: int)
    requires IsDigits(row, m) && |row| >= 1 && Sum(row) >= m
    ensures LastPos(row, |row| - 1) >= 1
  {
    var p := LastPos(row, |row| - 1);
    if p < 1 {
      SumAllZero(row[1..]);
      assert false;
    }
  }

  /** A digit row whose entries after p are zero: its value and digit sum
   *  in terms of the prefix before p. */
  lemma RowAtLast(row: seq<int>, n: int, p: int, m: int)
    requires m >= 1 && |row| == n && IsDigits(row, m) && p == LastPos(row, n - 1) && p >= 1
    ensures Value(row, m) == Value(row[..p], m) * Ipow(m, n - p) + row[p] * Ipow(m, n - 1 - p)
  {
    var pre, c, zs := row[..p], row[p], row[p + 1..];
    var w := Ipow(m, n - 1 - p);
    ZerosAfter(row, n, p, m);
    assert Value(row, m) == Value(pre + [c], m) * w by {
      assert row == pre + [c] + zs;
      ValueAppend(pre + [c], zs, m);
      SumAllZero(zs);
    }
    assert Value(pre + [c], m) == Value(pre, m) * m + c by {
      ValueAppend(pre, [c], m);
    }
    assert Ipow(m, n - p) == m * w by {
      IpowStep(m, n - 1 - p);
    }
    LinearStep(Value(pre, m), c, m, w);
  }

  lemma LinearStep(a: int, c: int, m: int, w: int)
    ensures (a * m + c) * w == a * (m * w) + c * w
  {
  }

  lemma RowSumAtLast(row: seq<int>, n: int, p: int, m: int)
    requires |row| == n && IsDigits(row, m) && p == LastPos(row, n - 1) && p >= 1
    ensures Sum(row) == Sum(row[..p]) + row[p]
  {
    var pre := row[..p];
    var zs := row[p + 1..];
    ZerosAfter(row, n, p, m);
    SumAllZero(zs);
    assert row == pre + [row[p]] + zs;
    SumAppend(pre + [row[p]], zs);
    SumAppend(pre, [row[p]]);
  }

  /** The entries after the last positive one are zero, and the prefix
   *  before it is a digit row. */
  lemma ZerosAfter(row: seq<int>, n: int, p: int, m: int)
    requires |row| == n && IsDigits(row, m) && p == LastPos(row, n - 1) && p >= 1
    ensures AllZero(row[p + 1..])
    ensures IsDigits(row[..p], m) && 0 <= row[p] <= m - 1 && p < n
  {
  }

  /** Bumping the entry before p and zeroing from p on. */
  lemma BumpedValue(row: seq<int>, n: int, p: int, m: int)
    requires |row| == n && IsDigits(row, m) && p == LastPos(row, n - 1) && p >= 1
    ensures Value(row[p := 0][p - 1 := row[p - 1] + 1], m) == (Value(row[..p], m) + 1) * Ipow(m, |row| - p)
  {
    var pre := row[..p];
    var zs := row[p + 1..];
    var pre2 := pre[p - 1 := pre[p - 1] + 1];
    ZerosAfter(row, n, p, m);
    assert row[p := 0][p - 1 := row[p - 1] + 1] == pre2 + ([0] + zs);
    forall t | 0 <= t < |[0] + zs| ensures ([0] + zs)[t] == 0 {
      if t > 0 { assert ([0] + zs)[t] == zs[t - 1]; }
    }
    assert AllZero([0] + zs);
    SumAllZero([0] + zs);
    ValueAppend(pre2, [0] + zs, m);
    ValueAppend(pre[..p - 1], [pre[p - 1]], m);
    ValueAppend(pre[..p - 1], [pre[p - 1] + 1], m);
    assert pre == pre[..p - 1] + [pre[p - 1]];
    assert pre2 == pre[..p - 1] + [pre[p - 1] + 1];
  }

  /** NextRow on a row with digit sum at least m moves strictly forward,
   *  stays within m^n, and every row it skips has digit sum at least m:
   *  the skipped rows could not have been kept by newTaylor. */
  lemma NextRowSkips(i: int, n: int, m: int)
    requires m >= 1 && n >= 1 && 0 <= i < Ipow(m, n)
    requires Sum(Digits(i, n, m)) >= m
    ensures var j := TailValue(Bumped(Digits(i, n, m), n), n, m);
      i < j <= Ipow(m, n) &&
      forall k :: i <= k < j ==> Sum(Digits(k, n, m)) >= m
  {
    DigitsValue(i, n, m);
    JumpAhead(Digits(i, n, m), i, n, m);
  }

  /** NextRowSkips for a digit row given by its value i. */
  lemma JumpAhead(row: seq<int>, i: int, n: int, m: int)
    requires m >= 1 && n >= 1 && |row| == n && IsDigits(row, m) && Value(row, m) == i
    requires Sum(row) >= m
    ensures var j := TailValue(Bumped(row, n), n, m);
      i < j <= Ipow(m, n) &&
      forall k :: i <= k < j ==> Sum(Digits(k, n, m)) >= m
  {
    LastPositiveLate(row, m);
    JumpAt(row, i, n, m, LastPos(row, n - 1));
  }

  /** JumpAhead once the last positive entry p is known. */
  lemma JumpAt(row: seq<int>, i: int, n: int, m: int, p: int)
    requires m >= 1 && n >= 1 && |row| == n && IsDigits(row, m) && Value(row, m) == i
    requires Sum(row) >= m && p == LastPos(row, n - 1) && p >= 1
    ensures var j := TailValue(Bumped(row, n), n, m);
      i < j <= Ipow(m, n) &&
      forall k :: i <= k < j ==> Sum(Digits(k, n, m)) >= m
  {
    RowAtLast(row, n, p, m);
    BumpedTail(row, n, p, m);
    RowSumAtLast(row, n, p, m);
    ZerosAfter(row, n, p, m);
    JumpBetween(row[..p], row[p], n, m, p, i, TailValue(Bumped(row, n), n, m));
  }

  /** From i = A*m^(n-p) + c*m^(n-1-p), the jump to j = (A+1)*m^(n-p)
   *  moves forward, stays within m^n and skips only rows with digit sum
   *  at least m, where A is the value of the prefix pre. */
  lemma JumpBetween(pre: seq<int>, c: int, n: int, m: int, p: int, i: int, j: int)
    requires m >= 1 && 1 <= p < n && |pre| == p && IsDigits(pre, m)
    requires 0 <= c <= m - 1 && Sum(pre) + c >= m
    requires i == Value(pre, m) * Ipow(m, n - p) + c * Ipow(m, n - 1 - p)
    requires j == (Value(pre, m) + 1) * Ipow(m, n - p)
    ensures i < j <= Ipow(m, n)
    ensures forall k :: i <= k < j ==> Sum(Digits(k, n, m)) >= m
  {
    var A := Value(pre, m);
    assert i < j <= Ipow(m, n) by {
      IpowPositive(m, n - 1 - p);
      IpowShift(m, n, p);
      ValueBound(pre, m);
      JumpArith(i, j, A, Ipow(m, n - p), c, Ipow(m, n - 1 - p), m, Ipow(m, p), Ipow(m, n));
    }
    SkippedRange(pre, c, A, n, m, p);
  }

  /** Every index from A*P + c*w up to (A+1)*P has digit sum at least m
   *  when the prefix and c already add up to m. */
  lemma SkippedRange(pre: seq<int>, c: int, A: int, n: int, m: int, p: int)
    requires m >= 1 && 1 <= p < n && |pre| == p && IsDigits(pre, m) && A == Value(pre, m)
    requires 0 <= c && Sum(pre) + c >= m
    ensures forall k :: A * Ipow(m, n - p) + c * Ipow(m, n - 1 - p) <= k < (A + 1) * Ipow(m, n - p) ==>
      Sum(Digits(k, n, m)) >= m
  {
    forall k | A * Ipow(m, n - p) + c * Ipow(m, n - 1 - p) <= k < (A + 1) * Ipow(m, n - p)
      ensures Sum(Digits(k, n, m)) >= m
    {
      SkippedRow(pre, c, A, k, n, m, p);
    }
  }

  /** The arithmetic of JumpAhead: i = A*P + c*w lies below j = (A+1)*P,
   *  and j stays within N = m^p * P. */
  lemma JumpArith(i: int, j: int, A: int, P: int, c: int, w: int, m: int, Mp: int, N: int)
    requires i == A * P + c * w && j == (A + 1) * P
    requires P == m * w && m >= 1 && w >= 1 && c <= m - 1 && A < Mp && N == Mp * P
    ensures i < j <= N
  {
    StepBelow(A, P, c, w, m);
    MulMono(1, m, w);
    MulMono(A + 1, Mp, P);
  }

  /** m^n = m^p * m^(n-p) and m^(n-p) = m * m^(n-1-p). */
  lemma IpowShift(m: int, n: int, p: int)
    requires 0 <= p < n
    ensures Ipow(m, n) == Ipow(m, p) * Ipow(m, n - p)
    ensures Ipow(m, n - p) == m * Ipow(m, n - 1 - p)
  {
    IpowAdd(m, p, n - p);
  }

  lemma IpowStep(m: int, k: int)
    requires k >= 0
    ensures Ipow(m, k + 1) == m * Ipow(m, k)
  {
  }

  /** Below the next multiple: A*P + c*w < (A+1)*P when c < m and P = m*w. */
  lemma StepBelow(A: int, P: int, c: int, w: int, m: int)
    requires P == m * w && w >= 1 && c <= m - 1
    ensures A * P + c * w < (A + 1) * P
  {
    MulMono(c, m - 1, w);
    assert (A + 1) * P == A * P + m * w;
    assert (m - 1) * w == m * w - w;
  }

  /** The value of the last n entries of the bumped row. */
  lemma BumpedTail(row: seq<int>, n: int, p: int, m: int)
    requires |row| == n && p == LastPos(row, n - 1) && p >= 1 && IsDigits(row, m)
    ensures TailValue(Bumped(row, n), n, m) == (Value(row[..p], m) + 1) * Ipow(m, n - p)
  {
    BumpedValue(row, n, p, m);
    var b := Bumped(row, n);
    assert b[|b| - n..] == b;
  }

  /** A row between i = A*P + c*w and (A+1)*P shares the prefix of i and
   *  carries at least c at position p. */
  lemma SkippedRow(pre: seq<int>, c: int, A: int, k: int, n: int, m: int, p: int)
    requires m >= 1 && 1 <= p < n && |pre| == p && IsDigits(pre, m) && A == Value(pre, m)
    requires 0 <= c
    requires A * Ipow(m, n - p) + c * Ipow(m, n - 1 - p) <= k < (A + 1) * Ipow(m, n - p)
    ensures Sum(Digits(k, n, m)) >= Sum(pre) + c
  {
    var P := Ipow(m, n - p);
    var w := Ipow(m, n - 1 - p);
    var s := k - A * P;
    assert 0 <= s < P && c * w <= s && 0 <= k < Ipow(m, n) by {
      IpowPositive(m, n - 1 - p);
      IpowPositive(m, n - p);
      ValueBound(pre, m);
      IpowAdd(m, p, n - p);
      SkipBounds(k, A, P, c, w, Ipow(m, p), Ipow(m, n));
    }
    var e := Digits(s, n - p, m);
    assert Digits(k, n, m) == pre + e by {
      DigitsSplice(pre, A, s, k, n, m, p);
    }
    assert Sum(e) >= c by {
      LeadingDigit(s, n - p, m, c);
      DigitsValue(s, n - p, m);
      SumNonneg(e[1..]);
      assert e == [e[0]] + e[1..];
      SumAppend([e[0]], e[1..]);
    }
    SumAppend(pre, e);
  }

  /** The arithmetic of SkippedRow: k = A*P + s with c*w <= s < P, and k
   *  lies below N = Mp * P. */
  lemma SkipBounds(k: int, A: int, P: int, c: int, w: int, Mp: int, N: int)
    requires A * P + c * w <= k < (A + 1) * P
    requires w >= 1 && P >= 1 && c >= 0 && 0 <= A < Mp && N == Mp * P
    ensures 0 <= k - A * P < P && c * w <= k - A * P && 0 <= k < N
  {
    MulMono(0, c, w);
    MulMono(A + 1, Mp, P);
    MulMono(0, A, P);
  }

  /** The digits of A*m^(n-p) + s are those of A (p digits) followed by
   *  those of s (n-p digits). */
  lemma DigitsSplice(pre: seq<int>, A: int, s: int, k: int, n: int, m: int, p: int)
    requires m >= 1 && 1 <= p < n && |pre| == p && IsDigits(pre, m) && A == Value(pre, m)
    requires 0 <= s < Ipow(m, n - p) && k == A * Ipow(m, n - p) + s && 0 <= k < Ipow(m, n)
    ensures Digits(k, n, m) == pre + Digits(s, n - p, m)
  {
    var e := Digits(s, n - p, m);
    DigitsValue(s, n - p, m);
    ValueAppend(pre, e, m);
    DigitsValue(k, n, m);
    assert IsDigits(pre + e, m);
    DigitsUnique(Digits(k, n, m), pre + e, m);
  }

  // ---------------------------------------------------------------------
  // Mod and equivalence checks

  /** Every check has a first entry, and when check[0] >= 1 (the only
   *  case in which the second is read) it names a range
   *  row[check[0]-1 : check[1]] that Go can slice. */
  predicate ChecksFit(checks: seq<seq<int>>, len: int) {
    forall c :: 0 <= c < |checks| ==>
      |checks[c]| >= 1 &&
      (checks[c][0] >= 1 ==> |checks[c]| >= 2 && checks[c][0] - 1 <= checks[c][1] <= len)
  }

  /** ModCheck (taylor.go:249-263). */
  function ModCheck(row: seq<int>, modchecks: seq<seq<int>>): bool
    requires ChecksFit(modchecks, |row|)
    decreases |modchecks|
  {
    if modchecks == [] then true
    else
      var check := modchecks[0];
      var start := check[0] - 1;
      if start >= 0 && Sum(row[start..check[1]]) % 2 != 0 then false
      else ModCheck(row, modchecks[1..])
  }

  /** EqCheck (taylor.go:269-282). */
  function EqCheck(row: seq<int>, eqchecks: seq<seq<int>>): bool
    requires ChecksFit(eqchecks, |row|)
    decreases |eqchecks|
  {
    if eqchecks == [] then true
    else
      var check := eqchecks[0];
      var start := check[0] - 1;
      if start < 0 || Sum(row[start..check[1]]) != 1 then false
      else EqCheck(row, eqchecks[1..])
  }

  /** ModCheck fails exactly when some check starting at 1 or later covers
   *  an odd sum; checks starting at 0 are ignored. */
  lemma {:induction false} ModCheckIff(row: seq<int>, modchecks: seq<seq<int>>)
    requires ChecksFit(modchecks, |row|)
    ensures !ModCheck(row, modchecks) <==>
      exists c :: (0 <= c < |modchecks| && modchecks[c][0] >= 1 &&
        Sum(row[modchecks[c][0] - 1..modchecks[c][1]]) % 2 == 1)
    decreases |modchecks|
  {
    if modchecks != [] {
      ModCheckIff(row, modchecks[1..]);
      if exists c :: (1 <= c < |modchecks| && modchecks[c][0] >= 1 &&
        Sum(row[modchecks[c][0] - 1..modchecks[c][1]]) % 2 == 1)
      {
        var c :| 1 <= c < |modchecks| && modchecks[c][0] >= 1 &&
          Sum(row[modchecks[c][0] - 1..modchecks[c][1]]) % 2 == 1;
        assert modchecks[1..][c - 1] == modchecks[c];
      }
      if exists c :: (0 <= c < |modchecks[1..]| && modchecks[1..][c][0] >= 1 &&
        Sum(row[modchecks[1..][c][0] - 1..modchecks[1..][c][1]]) % 2 == 1)
      {
        var c :| 0 <= c < |modchecks[1..]| && modchecks[1..][c][0] >= 1 &&
          Sum(row[modchecks[1..][c][0] - 1..modchecks[1..][c][1]]) % 2 == 1;
        assert modchecks[1..][c] == modchecks[c + 1];
      }
    }
  }

  /** EqCheck holds exactly when every check starts at 1 or later and
   *  covers a sum of exactly 1; no checks at all pass. */
  lemma {:induction false} EqCheckIff(row: seq<int>, eqchecks: seq<seq<int>>)
    requires ChecksFit(eqchecks, |row|)
    ensures EqCheck(row, eqchecks) <==>
      forall c :: 0 <= c < |eqchecks| ==> (eqchecks[c][0] >= 1 &&
        Sum(row[eqchecks[c][0] - 1..eqchecks[c][1]]) == 1)
    decreases |eqchecks|
  {
    if eqchecks != [] {
      EqCheckIff(row, eqchecks[1..]);
      assert forall c :: 1 <= c < |eqchecks| ==> eqchecks[1..][c - 1] == eqchecks[c];
    }
  }

  // ---------------------------------------------------------------------
  // newTaylor

  predicate OptFit(checks: Option<seq<seq<int>>>, len: int) {
    checks.None? || ChecksFit(checks.value, len)
  }

  /** The keep decision of newTaylor (taylor.go:292-309); a nil check list
   *  counts as passing. */
  predicate Kept(row: seq<int>, modchecks: Option<seq<seq<int>>>, eqchecks: Option<seq<seq<int>>>)
    requires OptFit(modchecks, |row|) && OptFit(eqchecks, |row|)
  {
    var mc := if modchecks.Some? then ModCheck(row, modchecks.value) else true;
    var ec := if eqchecks.Some? then EqCheck(row, eqchecks.value) else true;
    !((modchecks.None? && !ec) || (eqchecks.None? && !mc) || (!ec && !mc))
  }

  /** With both lists a row needs one check to pass; with one list it
   *  needs that one; with none every row is kept. */
  lemma KeptCases(row: seq<int>, modchecks: Option<seq<seq<int>>>, eqchecks: Option<seq<seq<int>>>)
    requires OptFit(modchecks, |row|) && OptFit(eqchecks, |row|)
    ensures modchecks.Some? && eqchecks.Some? ==>
      (Kept(row, modchecks, eqchecks) <==> ModCheck(row, modchecks.value) || EqCheck(row, eqchecks.value))
    ensures modchecks.Some? && eqchecks.None? ==>
      (Kept(row, modchecks, eqchecks) <==> ModCheck(row, modchecks.value))
    ensures modchecks.None? && eqchecks.Some? ==>
      (Kept(row, modchecks, eqchecks) <==> EqCheck(row, eqchecks.value))
    ensures modchecks.None? && eqchecks.None? ==> Kept(row, modchecks, eqchecks)
  {
  }

  /** The rows newTaylor has kept once it has looked at indices below k. */
  function TaylorRows(m: int, n: int, modchecks: Option<seq<seq<int>>>, eqchecks: Option<seq<seq<int>>>, k: int): seq<seq<int>>
    requires m >= 1 && OptFit(modchecks, n) && OptFit(eqchecks, n)
    decreases k
  {
    if k <= 0 then []
    else
      var row := Digits(k - 1, n, m);
      TaylorRows(m, n, modchecks, eqchecks, k - 1) + (if Keeps(row, m, modchecks, eqchecks) then [row] else [])
  }

  /** Whether newTaylor keeps row: digit sum below m and passing the checks. */
  predicate Keeps(row: seq<int>, m: int, modchecks: Option<seq<seq<int>>>, eqchecks: Option<seq<seq<int>>>)
    requires OptFit(modchecks, |row|) && OptFit(eqchecks, |row|)
  {
    Sum(row) < m && Kept(row, modchecks, eqchecks)
  }

  lemma TaylorRowsNext(m: int, n: int, modchecks: Option<seq<seq<int>>>, eqchecks: Option<seq<seq<int>>>, i: int)
    requires m >= 1 && OptFit(modchecks, n) && OptFit(eqchecks, n) && i >= 0
    ensures var row := Digits(i, n, m);
      TaylorRows(m, n, modchecks, eqchecks, i + 1) ==
        TaylorRows(m, n, modchecks, eqchecks, i) + (if Keeps(row, m, modchecks, eqchecks) then [row] else [])
  {
  }

  /** Skipped indices add no rows. */
  lemma {:induction false} TaylorRowsSkip(m: int, n: int, modchecks: Option<seq<seq<int>>>, eqchecks: Option<seq<seq<int>>>, i: int, j: int)
    requires m >= 1 && OptFit(modchecks, n) && OptFit(eqchecks, n) && i <= j
    requires forall k :: i <= k < j ==> Sum(Digits(k, n, m)) >= m
    ensures TaylorRows(m, n, modchecks, eqchecks, j) == TaylorRows(m, n, modchecks, eqchecks, i)
    decreases j - i
  {
    if i < j {
      TaylorRowsSkip(m, n, modchecks, eqchecks, i, j - 1);
    }
  }

  /** newTaylor (taylor.go:286-318). The loop ends because NextRow always
   *  moves forward (NextRowSkips). A nil check list is None. */
  method NewTaylor(m: int, n: int, modchecks: Option<seq<seq<int>>>, eqchecks: Option<seq<seq<int>>>)
    returns (forces: seq<seq<int>>)
    requires m >= 1 && OptFit(modchecks, n) && OptFit(eqchecks, n)
    ensures forces == TaylorRows(m, n, modchecks, eqchecks, Ipow(m, n))
  {
    var lastIndex := Ipow(m, n);
    IpowPositive(m, n);
    forces := [];
    var i := 0;
    while i < lastIndex
      invariant 0 <= i <= lastIndex
      invariant forces == TaylorRows(m, n, modchecks, eqchecks, i)
      decreases lastIndex - i
    {
      var row := Row(i, n, m);
      TaylorRowsNext(m, n, modchecks, eqchecks, i);
      var s := Sum(row);
      if s < m {
        var mc, ec;
        if modchecks.Some? {
          mc := ModCheck(row, modchecks.value);
        } else {
          mc := true;
        }
        if eqchecks.Some? {
          ec := EqCheck(row, eqchecks.value);
        } else {
          ec := true;
        }
        if (modchecks.None? && !ec) || (eqchecks.None? && !mc) || (!ec && !mc) {
          i := i + 1;
          continue;
        }
        forces := forces + [row];
        i := i + 1;
      } else {
        var j := Jump(row, i, n, m);
        TaylorRowsSkip(m, n, modchecks, eqchecks, i, j);
        i := j;
      }
    }
  }

  /** The jump newTaylor takes from a row whose digit sum is at least m:
   *  NextRow on a fresh copy of the row. */
  method Jump(row: seq<int>, i: int, n: int, m: int) returns (j: int)
    requires m >= 1 && n >= 1 && 0 <= i < Ipow(m, n) && row == Digits(i, n, m)
    requires Sum(row) >= m
    ensures i < j <= Ipow(m, n)
    ensures forall k :: i <= k < j ==> Sum(Digits(k, n, m)) >= m
  {
    NextRowSkips(i, n, m);
    var a := new int[|row|](t requires 0 <= t < |row| => row[t]);
    assert a[..] == row;
    j := NextRow(a, n, m);
  }

  /** What newTaylor promises of a kept row found below index k. */
  predicate GoodRow(row: seq<int>, m: int, n: int, modchecks: Option<seq<seq<int>>>, eqchecks: Option<seq<seq<int>>>, k: int)
    requires OptFit(modchecks, n) && OptFit(eqchecks, n)
  {
    |row| == n && IsDigits(row, m) && Sum(row) < m && Kept(row, modchecks, eqchecks) && Value(row, m) < k
  }

  predicate AllGood(rows: seq<seq<int>>, m: int, n: int, modchecks: Option<seq<seq<int>>>, eqchecks: Option<seq<seq<int>>>, k: int)
    requires OptFit(modchecks, n) && OptFit(eqchecks, n)
  {
    forall r :: 0 <= r < |rows| ==> GoodRow(rows[r], m, n, modchecks, eqchecks, k)
  }

  /** Rows in strictly increasing order of their base-m value. */
  predicate Increasing(rows: seq<seq<int>>, m: int) {
    forall a, b :: 0 <= a < b < |rows| ==> Value(rows[a], m) < Value(rows[b], m)
  }

  /** Every kept row is a digit row of length n with digit sum below m that
   *  passes the checks and whose index is below k. */
  lemma {:induction false} TaylorRowsSound(m: int, n: int, modchecks: Option<seq<seq<int>>>, eqchecks: Option<seq<seq<int>>>, k: int)
    requires m >= 1 && n >= 0 && OptFit(modchecks, n) && OptFit(eqchecks, n) && k <= Ipow(m, n)
    ensures AllGood(TaylorRows(m, n, modchecks, eqchecks, k), m, n, modchecks, eqchecks, k)
    decreases k
  {
    if k > 0 {
      TaylorRowsSound(m, n, modchecks, eqchecks, k - 1);
      var prev := TaylorRows(m, n, modchecks, eqchecks, k - 1);
      var rows := TaylorRows(m, n, modchecks, eqchecks, k);
      var row := Digits(k - 1, n, m);
      DigitsValue(k - 1, n, m);
      SoundStep(prev, rows, row, m, n, modchecks, eqchecks, k);
    }
  }

  lemma SoundStep(prev: seq<seq<int>>, rows: seq<seq<int>>, row: seq<int>, m: int, n: int,
                  modchecks: Option<seq<seq<int>>>, eqchecks: Option<seq<seq<int>>>, k: int)
    requires OptFit(modchecks, n) && OptFit(eqchecks, n) && |row| == n
    requires IsDigits(row, m) && Value(row, m) == k - 1
    requires rows == prev + (if Keeps(row, m, modchecks, eqchecks) then [row] else [])
    requires AllGood(prev, m, n, modchecks, eqchecks, k - 1)
    ensures AllGood(rows, m, n, modchecks, eqchecks, k)
  {
    forall r | 0 <= r < |rows| ensures GoodRow(rows[r], m, n, modchecks, eqchecks, k) {
      if r < |prev| {
        assert rows[r] == prev[r];
        assert GoodRow(prev[r], m, n, modchecks, eqchecks, k - 1);
      } else {
        assert rows[r] == row;
      }
    }
  }

  /** Every digit row below index k with digit sum below m that passes the
   *  checks is kept. */
  lemma {:induction false} TaylorRowsComplete(m: int, n: int, modchecks: Option<seq<seq<int>>>, eqchecks: Option<seq<seq<int>>>, k: int, x: int)
    requires m >= 1 && n >= 0 && OptFit(modchecks, n) && OptFit(eqchecks, n)
    requires 0 <= x < k
    requires Sum(Digits(x, n, m)) < m && Kept(Digits(x, n, m), modchecks, eqchecks)
    ensures Digits(x, n, m) in TaylorRows(m, n, modchecks, eqchecks, k)
    decreases k
  {
    var prev := TaylorRows(m, n, modchecks, eqchecks, k - 1);
    var row, y := Digits(k - 1, n, m), Digits(x, n, m);
    TaylorRowsNext(m, n, modchecks, eqchecks, k - 1);
    if x < k - 1 {
      TaylorRowsComplete(m, n, modchecks, eqchecks, k - 1, x);
    }
    CompleteStep(prev, TaylorRows(m, n, modchecks, eqchecks, k), row, y, m, n, modchecks, eqchecks);
  }

  lemma CompleteStep(prev: seq<seq<int>>, rows: seq<seq<int>>, row: seq<int>, y: seq<int>, m: int, n: int,
                     modchecks: Option<seq<seq<int>>>, eqchecks: Option<seq<seq<int>>>)
    requires OptFit(modchecks, n) && OptFit(eqchecks, n) && |row| == n
    requires rows == prev + (if Keeps(row, m, modchecks, eqchecks) then [row] else [])
    requires y in prev || (y == row && Keeps(row, m, modchecks, eqchecks))
    ensures y in rows
  {
  }

  /** Kept rows come in strictly increasing index order. */
  lemma {:induction false} TaylorRowsOrdered(m: int, n: int, modchecks: Option<seq<seq<int>>>, eqchecks: Option<seq<seq<int>>>, k: int)
    requires m >= 1 && n >= 0 && OptFit(modchecks, n) && OptFit(eqchecks, n) && k <= Ipow(m, n)
    ensures Increasing(TaylorRows(m, n, modchecks, eqchecks, k), m)
    decreases k
  {
    if k > 0 {
      TaylorRowsOrdered(m, n, modchecks, eqchecks, k - 1);
      TaylorRowsSound(m, n, modchecks, eqchecks, k - 1);
      var prev := TaylorRows(m, n, modchecks, eqchecks, k - 1);
      var rows := TaylorRows(m, n, modchecks, eqchecks, k);
      var row := Digits(k - 1, n, m);
      DigitsValue(k - 1, n, m);
      OrderStep(prev, rows, row, m, n, modchecks, eqchecks, k);
    }
  }

  lemma OrderStep(prev: seq<seq<int>>, rows: seq<seq<int>>, row: seq<int>, m: int, n: int,
                  modchecks: Option<seq<seq<int>>>, eqchecks: Option<seq<seq<int>>>, k: int)
    requires OptFit(modchecks, n) && OptFit(eqchecks, n) && |row| == n && Value(row, m) == k - 1
    requires rows == prev + (if Keeps(row, m, modchecks, eqchecks) then [row] else [])
    requires AllGood(prev, m, n, modchecks, eqchecks, k - 1) && Increasing(prev, m)
    ensures Increasing(rows, m)
  {
    forall a, b | 0 <= a < b < |rows| ensures Value(rows[a], m) < Value(rows[b], m) {
      assert rows[a] == prev[a];
      assert GoodRow(prev[a], m, n, modchecks, eqchecks, k - 1);
      if b < |prev| {
        assert rows[b] == prev[b];
      } else {
        assert rows[b] == row;
      }
    }
  }
}
