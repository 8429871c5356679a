/** taylor.go, second half: the displacements of a list of Taylor rows.
 *  Each non-zero digit d of a row is replaced by every value -d, -d+2, ..,
 *  d (a Cartesian product over the non-zero positions), and the list is
 *  optionally deduplicated by a string key. */
module TaylorDisps {
  import opened Text
  import opened Utils

  // ---------------------------------------------------------------------
  // CartProd

  /** x extended by each element of pool, in pool order. */
  function Tack(x: seq<int>, pool: seq<int>): (r: seq<seq<int>>)
    ensures |r| == |pool| && forall b :: 0 <= b < |pool| ==> r[b] == x + [pool[b]]
    decreases |pool|
  {
    if pool == [] then [] else Tack(x, pool[..|pool| - 1]) + [x + [pool[|pool| - 1]]]
  }

  /** Every row extended by every element of pool, rows outermost. */
  function Extend(rows: seq<seq<int>>, pool: seq<int>): seq<seq<int>>
    decreases |rows|
  {
    if rows == [] then [] else Extend(rows[..|rows| - 1], pool) + Tack(rows[|rows| - 1], pool)
  }

  /** The Cartesian product of the pools, one pool added at a time. */
  function Product(pools: seq<seq<int>>): seq<seq<int>>
    decreases |pools|
  {
    if pools == [] then [[]] else Extend(Product(pools[..|pools| - 1]), pools[|pools| - 1])
  }

  /** CartProd (taylor.go:203-219). */
  method CartProd(pools: seq<seq<int>>) returns (result: seq<seq<int>>)
    ensures result == Product(pools)
  {
    result := [[]];
    var p := 0;
    while p < |pools|
      invariant 0 <= p <= |pools|
      invariant result == Product(pools[..p])
    {
      var pool := pools[p];
      var tmp: seq<seq<int>> := [];
      var xi := 0;
      while xi < |result|
        invariant 0 <= xi <= |result|
        invariant tmp == Extend(result[..xi], pool)
      {
        var x := result[xi];
        var yi := 0;
        while yi < |pool|
          invariant 0 <= yi <= |pool|
          invariant tmp == Extend(result[..xi], pool) + Tack(x, pool[..yi])
        {
          TackSnoc(x, pool, yi);
          tmp := tmp + [x + [pool[yi]]];
          yi := yi + 1;
        }
        assert pool[..yi] == pool;
        ExtendSnoc(result, pool, xi);
        xi := xi + 1;
      }
      ProductSnoc(pools, p, result);
      result := tmp;
      p := p + 1;
    }
    assert pools[..p] == pools;
  }

  lemma TackSnoc(x: seq<int>, pool: seq<int>, yi: int)
    requires 0 <= yi < |pool|
    ensures Tack(x, pool[..yi + 1]) == Tack(x, pool[..yi]) + [x + [pool[yi]]]
  {
    assert pool[..yi + 1][..yi] == pool[..yi];
  }

  lemma ExtendSnoc(rows: seq<seq<int>>, pool: seq<int>, xi: int)
    requires 0 <= xi < |rows|
    ensures Extend(rows[..xi + 1], pool) == Extend(rows[..xi], pool) + Tack(rows[xi], pool)
  {
    assert rows[..xi + 1][..xi] == rows[..xi];
  }

  lemma ProductSnoc(pools: seq<seq<int>>, p: int, rows: seq<seq<int>>)
    requires 0 <= p < |pools| && rows == Product(pools[..p])
    ensures Product(pools[..p + 1]) == Extend(rows[..|rows|], pools[p])
  {
    assert rows[..|rows|] == rows;
    assert pools[..p + 1][..p] == pools[..p];
  }

  /** The product of the pool sizes. */
  function Count(pools: seq<seq<int>>): nat
    decreases |pools|
  {
    if pools == [] then 1 else Count(pools[..|pools| - 1]) * |pools[|pools| - 1]|
  }

  lemma {:induction false} ExtendLength(rows: seq<seq<int>>, pool: seq<int>)
    ensures |Extend(rows, pool)| == |rows| * |pool|
    decreases |rows|
  {
    if rows != [] {
      ExtendLength(rows[..|rows| - 1], pool);
      SnocCount(|rows| - 1, |pool|);
    }
  }

  /** Row a of rows followed by element b of pool sits at a*|pool| + b. */
  lemma {:induction false} ExtendIndex(rows: seq<seq<int>>, pool: seq<int>, a: int, b: int)
    requires 0 <= a < |rows| && 0 <= b < |pool|
    ensures a * |pool| + b < |Extend(rows, pool)|
    ensures Extend(rows, pool)[a * |pool| + b] == rows[a] + [pool[b]]
    decreases |rows|
  {
    var init := rows[..|rows| - 1];
    var x := rows[|rows| - 1];
    var e := Extend(init, pool);
    ExtendLength(init, pool);
    assert Extend(rows, pool) == e + Tack(x, pool);
    IndexArith(a, b, |pool|, |init|);
    if a < |init| {
      ExtendIndex(init, pool, a, b);
      assert rows[a] == init[a];
    }
  }

  /** Where a*P + b falls among n+1 blocks of P. */
  lemma IndexArith(a: int, b: int, P: int, n: int)
    requires 0 <= a <= n && 0 <= b < P
    ensures a * P + b < n * P + P
    ensures a < n ==> a * P + b < n * P
    ensures a == n ==> a * P + b - n * P == b
  {
    Below(a, b, P, n + 1);
    SnocCount(n, P);
    if a < n {
      Below(a, b, P, n);
    }
  }

  lemma SnocCount(n: int, P: int)
    ensures (n + 1) * P == n * P + P
  {
  }

  lemma Below(a: int, b: int, P: int, n: int)
    requires 0 <= a < n && 0 <= b < P
    ensures a * P + b < n * P
  {
    MulMono(a + 1, n, P);
  }

  /** The product has one row per choice, last pool varying fastest: row
   *  a*|last| + b is row a of the product of the other pools followed by
   *  element b of the last pool. */
  lemma ProductIndex(pools: seq<seq<int>>, a: int, b: int)
    requires pools != []
    requires 0 <= a < |Product(pools[..|pools| - 1])| && 0 <= b < |pools[|pools| - 1]|
    ensures var last := pools[|pools| - 1];
      a * |last| + b < |Product(pools)| &&
      Product(pools)[a * |last| + b] == Product(pools[..|pools| - 1])[a] + [last[b]]
  {
    ExtendIndex(Product(pools[..|pools| - 1]), pools[|pools| - 1], a, b);
  }

  /** The number of rows is the product of the pool sizes. */
  lemma {:induction false} ProductCount(pools: seq<seq<int>>)
    ensures pools == [] ==> Product(pools) == [[]]
    ensures |Product(pools)| == Count(pools)
    decreases |pools|
  {
    if pools != [] {
      ProductCount(pools[..|pools| - 1]);
      ExtendLength(Product(pools[..|pools| - 1]), pools[|pools| - 1]);
    }
  }

  /** A row of the product picks, position by position, from each pool. */
  predicate Picks(r: seq<int>, pools: seq<seq<int>>) {
    |r| == |pools| && forall t :: 0 <= t < |r| ==> r[t] in pools[t]
  }

  lemma {:induction false} ExtendMembers(rows: seq<seq<int>>, pool: seq<int>, y: seq<int>)
    ensures y in Extend(rows, pool) <==> y != [] && y[..|y| - 1] in rows && y[|y| - 1] in pool
    decreases |rows|
  {
    if rows != [] {
      var init := rows[..|rows| - 1];
      var x := rows[|rows| - 1];
      ExtendMembers(init, pool, y);
      TackMember(x, pool, y);
      assert Extend(rows, pool) == Extend(init, pool) + Tack(x, pool);
      assert y in rows <==> y in init || y == x by {
        assert rows == init + [x];
      }
    }
  }

  lemma TackMember(x: seq<int>, pool: seq<int>, y: seq<int>)
    ensures y in Tack(x, pool) <==> y != [] && y[..|y| - 1] == x && y[|y| - 1] in pool
  {
    if y in Tack(x, pool) {
      var b :| 0 <= b < |pool| && Tack(x, pool)[b] == y;
      assert y[..|y| - 1] == x;
    }
    if y != [] && y[..|y| - 1] == x && y[|y| - 1] in pool {
      var b :| 0 <= b < |pool| && pool[b] == y[|y| - 1];
      assert y == x + [pool[b]];
      assert Tack(x, pool)[b] == y;
    }
  }

  lemma PicksSnoc(r: seq<int>, pools: seq<seq<int>>)
    requires r != [] && pools != []
    ensures Picks(r, pools) <==>
      Picks(r[..|r| - 1], pools[..|pools| - 1]) && r[|r| - 1] in pools[|pools| - 1]
  {
    var r0 := r[..|r| - 1];
    var init := pools[..|pools| - 1];
    if Picks(r, pools) {
      forall t | 0 <= t < |r0| ensures r0[t] in init[t] {
        assert r0[t] == r[t];
      }
    }
    if Picks(r0, init) && r[|r| - 1] in pools[|pools| - 1] {
      forall t | 0 <= t < |r| ensures r[t] in pools[t] {
        if t < |r0| {
          assert r[t] == r0[t];
        }
      }
    }
  }

  /** Exactly the rows that pick from each pool are in the product. */
  lemma {:induction false} ProductMembers(pools: seq<seq<int>>, r: seq<int>)
    ensures r in Product(pools) <==> Picks(r, pools)
    decreases |pools|
  {
    if pools == [] {
      assert Product(pools) == [[]];
    } else {
      var init := pools[..|pools| - 1];
      var last := pools[|pools| - 1];
      ExtendMembers(Product(init), last, r);
      if r != [] {
        var r0 := r[..|r| - 1];
        ProductMembers(init, r0);
        PicksSnoc(r, pools);
      }
    }
  }

  // ---------------------------------------------------------------------
  // Deduplicate

  /** The decimal texts of the entries. */
  function Texts(rs: seq<int>): (r: seq<string>)
    ensures |r| == |rs| && forall t :: 0 <= t < |rs| ==> r[t] == IntToString(rs[t])
  {
    Map(IntToString, rs)
  }

  /** The key Deduplicate's toKey builds: the entries in decimal joined by
   *  "-", so a negative entry adds a second "-". */
  function Key(rs: seq<int>): string {
    Join(Texts(rs), "-")
  }

  /** toKey (taylor.go:224-233). */
  method ToKey(rs: seq<int>) returns (str: string)
    ensures str == Key(rs)
  {
    str := "";
    for i := 0 to |rs|
      invariant str == Key(rs[..i])
    {
      if i > 0 {
        KeySnoc(rs, i);
        str := str + "-" + IntToString(rs[i]);
      } else {
        TextsSnoc(rs, 0);
        str := IntToString(rs[0]);
      }
    }
    assert rs[..|rs|] == rs;
  }

  lemma TextsSnoc(rs: seq<int>, i: int)
    requires 0 <= i < |rs|
    ensures Texts(rs[..i + 1]) == Texts(rs[..i]) + [IntToString(rs[i])]
  {
    MapSnoc(IntToString, rs, i);
  }

  lemma KeySnoc(rs: seq<int>, i: int)
    requires 0 < i < |rs|
    ensures Key(rs[..i + 1]) == Key(rs[..i]) + "-" + IntToString(rs[i])
  {
    TextsSnoc(rs, i);
    JoinSnoc(Texts(rs[..i]), IntToString(rs[i]), "-");
  }

  /** The pieces one entry contributes. */
  function Head(x: int): seq<string> {
    if x < 0 then ["", NatToString(-x)] else [NatToString(x)]
  }

  /** The pieces strings.Split(key, "-") gives back: a negative entry
   *  yields an empty piece and then its magnitude. */
  function Pieces(rs: seq<int>): seq<string>
    decreases |rs|
  {
    if rs == [] then []
    else Head(rs[0]) + Pieces(rs[1..])
  }

  /** Reads the pieces back into the entries. */
  function Decode(ps: seq<string>): seq<int>
    decreases |ps|
  {
    if ps == [] then []
    else if ps[0] == "" && |ps| >= 2 then [0 - ParseNat(ps[1]) as int] + Decode(ps[2..])
    else [ParseNat(ps[0]) as int] + Decode(ps[1..])
  }

  predicate Dashless(d: string) {
    forall k :: 0 <= k < |d| ==> d[k] != '-'
  }

  lemma NoDash(n: nat)
    ensures Dashless(NatToString(n))
  {
  }

  lemma SplitEntry(x: int)
    ensures Split(IntToString(x), "-") == Head(x)
  {
    var n: nat := if x < 0 then -x else x;
    var d := NatToString(n);
    NoDash(n);
    SplitNone(d, '-');
    if x < 0 {
      SplitCons("", '-', d);
      assert IntToString(x) == "" + ['-'] + d;
    }
  }

  lemma SplitEntryThen(x: int, k: string)
    ensures Split(IntToString(x) + "-" + k, "-") == Head(x) + Split(k, "-")
  {
    var n: nat := if x < 0 then -x else x;
    var d := NatToString(n);
    NoDash(n);
    if x < 0 {
      assert IntToString(x) == "-" + d;
      SplitNegThen(d, k);
    } else {
      assert IntToString(x) == d;
      SplitCons(d, '-', k);
    }
  }

  lemma SplitNegThen(d: string, k: string)
    requires Dashless(d)
    ensures Split("-" + d + "-" + k, "-") == ["", d] + Split(k, "-")
  {
    SplitCons(d, '-', k);
    SplitCons("", '-', d + "-" + k);
    assert "-" + d + "-" + k == "" + ['-'] + (d + "-" + k);
  }

  lemma KeyCons(x: int, rest: seq<int>)
    requires rest != []
    ensures Key([x] + rest) == IntToString(x) + "-" + Key(rest)
  {
    MapCons(IntToString, x, rest);
    JoinCons(IntToString(x), Texts(rest), "-");
  }

  lemma {:induction false} SplitKey(rs: seq<int>)
    requires rs != []
    ensures Split(Key(rs), "-") == Pieces(rs)
    decreases |rs|
  {
    var x := rs[0];
    var rest := rs[1..];
    assert Pieces(rs) == Head(x) + Pieces(rest);
    if rest == [] {
      assert Texts(rs) == [IntToString(x)];
      SplitEntry(x);
    } else {
      SplitKey(rest);
      assert rs == [x] + rest;
      KeyCons(x, rest);
      SplitEntryThen(x, Key(rest));
    }
  }

  lemma {:induction false} DecodePieces(rs: seq<int>)
    ensures Decode(Pieces(rs)) == rs
    decreases |rs|
  {
    if rs != [] {
      DecodePieces(rs[1..]);
      var x := rs[0];
      var n: nat := if x < 0 then -x else x;
      ParseNatToString(n);
      DecodeCons(x, NatToString(n), Pieces(rs[1..]));
      assert [x] + rs[1..] == rs;
    }
  }

  /** Decoding the pieces of one entry, then the rest. */
  lemma DecodeCons(x: int, s: string, rest: seq<string>)
    requires s != "" && ParseNat(s) == (if x < 0 then -x else x)
    ensures Decode((if x < 0 then ["", s] else [s]) + rest) == [x] + Decode(rest)
  {
    if x < 0 {
      assert (["", s] + rest)[2..] == rest;
    } else {
      assert ([s] + rest)[1..] == rest;
    }
  }

  /** Different rows never share a key, so the key map in Deduplicate
   *  compares rows exactly. */
  lemma KeyInjective(a: seq<int>, b: seq<int>)
    requires Key(a) == Key(b)
    ensures a == b
  {
    if a != [] {
      JoinFirst(Texts(a), "-");
    }
    if b != [] {
      JoinFirst(Texts(b), "-");
    }
    if a != [] && b != [] {
      SplitKey(a);
      SplitKey(b);
      DecodePieces(a);
      DecodePieces(b);
    }
  }

  /** The keys of the rows seen so far. */
  function Keys(rows: seq<seq<int>>): set<string> {
    set r | r in rows :: Key(r)
  }

  lemma KeysMember(rows: seq<seq<int>>, x: seq<int>)
    ensures Key(x) in Keys(rows) <==> x in rows
  {
    if Key(x) in Keys(rows) {
      var r :| r in rows && Key(r) == Key(x);
      KeyInjective(r, x);
    }
  }

  /** The first occurrence of every row, in order. */
  function Firsts(rows: seq<seq<int>>): seq<seq<int>>
    decreases |rows|
  {
    if rows == [] then []
    else
      var init := rows[..|rows| - 1];
      var last := rows[|rows| - 1];
      Firsts(init) + (if last in init then [] else [last])
  }

  /** Deduplicate (taylor.go:223-243). The map of seen keys only ever
   *  holds true, so it is a set here. */
  method Deduplicate(rows: seq<seq<int>>) returns (ret: seq<seq<int>>)
    ensures ret == Firsts(rows)
  {
    var m: set<string> := {};
    ret := [];
    for i := 0 to |rows|
      invariant m == Keys(rows[..i])
      invariant ret == Firsts(rows[..i])
    {
      var row := rows[i];
      var key := ToKey(row);
      DedupStep(rows, i);
      if key !in m {
        m := m + {key};
        ret := ret + [row];
      }
    }
    assert rows[..|rows|] == rows;
  }

  lemma DedupStep(rows: seq<seq<int>>, i: int)
    requires 0 <= i < |rows|
    ensures Keys(rows[..i + 1]) == Keys(rows[..i]) + {Key(rows[i])}
    ensures Key(rows[i]) in Keys(rows[..i]) <==> rows[i] in rows[..i]
    ensures Firsts(rows[..i + 1]) == Firsts(rows[..i]) + (if rows[i] in rows[..i] then [] else [rows[i]])
  {
    KeysMember(rows[..i], rows[i]);
    assert rows[..i + 1] == rows[..i] + [rows[i]];
  }

  predicate Distinct(rows: seq<seq<int>>) {
    forall a, b :: 0 <= a < b < |rows| ==> rows[a] != rows[b]
  }

  /** Deduplicate leaves no two equal rows and loses no row. */
  lemma {:induction false} FirstsDistinct(rows: seq<seq<int>>)
    ensures Distinct(Firsts(rows))
    ensures forall x :: x in Firsts(rows) <==> x in rows
    decreases |rows|
  {
    if rows != [] {
      var init := rows[..|rows| - 1];
      FirstsDistinct(init);
      assert rows == init + [rows[|rows| - 1]];
    }
  }

  /** Rows already free of repeats come back unchanged. */
  lemma {:induction false} FirstsOfDistinct(rows: seq<seq<int>>)
    requires Distinct(rows)
    ensures Firsts(rows) == rows
    decreases |rows|
  {
    if rows != [] {
      var init := rows[..|rows| - 1];
      assert Distinct(init);
      FirstsOfDistinct(init);
      assert rows == init + [rows[|rows| - 1]];
    }
  }

  // ---------------------------------------------------------------------
  // Disps

  /** The positions of the non-zero digits of row, in increasing order. */
  function NonZeroAt(row: seq<int>): (idx: seq<int>)
    ensures forall t :: 0 <= t < |idx| ==> 0 <= idx[t] < |row| && row[idx[t]] != 0
    ensures forall a, b :: 0 <= a < b < |idx| ==> idx[a] < idx[b]
    decreases |row|
  {
    if row == [] then []
    else
      var init := row[..|row| - 1];
      NonZeroAt(init) + (if row[|row| - 1] != 0 then [|row| - 1] else [])
  }

  /** The digits of row at the given positions. */
  function At(row: seq<int>, idx: seq<int>): (r: seq<int>)
    requires forall t :: 0 <= t < |idx| ==> 0 <= idx[t] < |row|
    ensures |r| == |idx| && forall t :: 0 <= t < |idx| ==> r[t] == row[idx[t]]
  {
    seq(|idx|, t requires 0 <= t < |idx| => row[idx[t]])
  }

  /** j, j+2, .. up to d: the inner loop of Disps from j = -d. */
  function Steps(j: int, d: int): seq<int>
    decreases d - j + 2
  {
    if j > d then [] else [j] + Steps(j + 2, d)
  }

  /** One pool of displaced values per non-zero digit. */
  function Pools(values: seq<int>): (r: seq<seq<int>>)
    ensures |r| == |values| && forall t :: 0 <= t < |values| ==> r[t] == Steps(-values[t], values[t])
  {
    seq(|values|, t requires 0 <= t < |values| => Steps(-values[t], values[t]))
  }

  predicate InRange(idx: seq<int>, len: int) {
    forall t :: 0 <= t < |idx| ==> 0 <= idx[t] < len
  }

  /** row with the entry at idx[t] replaced by vals[t], in turn. */
  function Place(row: seq<int>, idx: seq<int>, vals: seq<int>): (r: seq<int>)
    requires |idx| == |vals| && InRange(idx, |row|)
    ensures |r| == |row|
    decreases |idx|
  {
    if idx == [] then row
    else Place(row, idx[..|idx| - 1], vals[..|vals| - 1])[idx[|idx| - 1] := vals[|vals| - 1]]
  }

  /** Every row of nrows placed into row. */
  function PlaceAll(row: seq<int>, idx: seq<int>, nrows: seq<seq<int>>): (r: seq<seq<int>>)
    requires InRange(idx, |row|) && forall q :: 0 <= q < |nrows| ==> |nrows[q]| == |idx|
    ensures |r| == |nrows| && forall q :: 0 <= q < |nrows| ==> r[q] == Place(row, idx, nrows[q])
  {
    seq(|nrows|, q requires 0 <= q < |nrows| => Place(row, idx, nrows[q]))
  }

  lemma ProductShape(pools: seq<seq<int>>)
    ensures forall q :: 0 <= q < |Product(pools)| ==> |Product(pools)[q]| == |pools|
  {
    forall q | 0 <= q < |Product(pools)| ensures |Product(pools)[q]| == |pools| {
      ProductMembers(pools, Product(pools)[q]);
    }
  }

  /** The displacements of one row. */
  function RowDisps(row: seq<int>): seq<seq<int>> {
    var idx := NonZeroAt(row);
    if idx == [] then [row]
    else
      var pools := Pools(At(row, idx));
      ProductShape(pools);
      PlaceAll(row, idx, Product(pools))
  }

  /** The displacements of every row, in order. */
  function AllDisps(fcs: seq<seq<int>>): seq<seq<int>>
    decreases |fcs|
  {
    if fcs == [] then [] else AllDisps(fcs[..|fcs| - 1]) + RowDisps(fcs[|fcs| - 1])
  }

  lemma PoolsSnoc(values: seq<int>, v: int)
    requires 0 <= v < |values|
    ensures Pools(values[..v + 1]) == Pools(values[..v]) + [Steps(-values[v], values[v])]
  {
    assert values[..v + 1][..v] == values[..v];
  }

  lemma PlaceAllSnoc(row: seq<int>, idx: seq<int>, nrows: seq<seq<int>>, q: int)
    requires InRange(idx, |row|) && forall p :: 0 <= p < |nrows| ==> |nrows[p]| == |idx|
    requires 0 <= q < |nrows|
    ensures PlaceAll(row, idx, nrows[..q + 1]) == PlaceAll(row, idx, nrows[..q]) + [Place(row, idx, nrows[q])]
  {
    assert nrows[..q + 1][..q] == nrows[..q];
  }

  /** Disps (taylor.go:161-198). */
  method Disps(fcs: seq<seq<int>>, dups: bool) returns (disps: seq<seq<int>>)
    ensures disps == if dups then AllDisps(fcs) else Firsts(AllDisps(fcs))
  {
    disps := [];
    for f := 0 to |fcs|
      invariant disps == AllDisps(fcs[..f])
    {
      assert fcs[..f + 1][..f] == fcs[..f];
      var out := DisplaceRow(fcs[f]);
      disps := disps + out;
    }
    assert fcs[..|fcs|] == fcs;
    if !dups {
      disps := Deduplicate(disps);
    }
  }

  /** The body of the loop over fcs in Disps (taylor.go:162-193). */
  method DisplaceRow(row: seq<int>) returns (out: seq<seq<int>>)
    ensures out == RowDisps(row)
  {
    var indices, values := NonZero(row);
    if |values| == 0 {
      return [row];
    }
    var prods: seq<seq<int>> := [];
    for v := 0 to |values|
      invariant prods == Pools(values[..v])
    {
      var tmp := Pool(values[v]);
      PoolsSnoc(values, v);
      prods := prods + [tmp];
    }
    assert values[..|values|] == values;
    var newrows := CartProd(prods);
    ProductShape(prods);
    out := [];
    for q := 0 to |newrows|
      invariant out == PlaceAll(row, indices, newrows[..q])
    {
      var r := PlaceRow(row, indices, newrows[q]);
      PlaceAllSnoc(row, indices, newrows, q);
      out := out + [r];
    }
    assert newrows[..|newrows|] == newrows;
    RowDispsPlaced(row, indices, prods);
  }

  lemma RowDispsPlaced(row: seq<int>, idx: seq<int>, pools: seq<seq<int>>)
    requires idx == NonZeroAt(row) && idx != [] && pools == Pools(At(row, idx))
    ensures forall q :: 0 <= q < |Product(pools)| ==> |Product(pools)[q]| == |idx|
    ensures RowDisps(row) == PlaceAll(row, idx, Product(pools))
  {
    ProductShape(pools);
  }

  /** The positions and values of the non-zero digits (taylor.go:165-170). */
  method NonZero(row: seq<int>) returns (indices: seq<int>, values: seq<int>)
    ensures indices == NonZeroAt(row) && values == At(row, indices)
  {
    indices := [];
    values := [];
    for i := 0 to |row|
      invariant indices == NonZeroAt(row[..i])
      invariant InRange(indices, |row|) && values == At(row, indices)
    {
      assert row[..i + 1][..i] == row[..i];
      if row[i] != 0 {
        indices := indices + [i];
        values := values + [row[i]];
      }
    }
    assert row[..|row|] == row;
  }

  /** The values -digit, -digit+2, .., digit (taylor.go:177-180). */
  method Pool(digit: int) returns (tmp: seq<int>)
    ensures tmp == Steps(-digit, digit)
  {
    tmp := [];
    var j := -digit;
    while j <= digit
      invariant tmp + Steps(j, digit) == Steps(-digit, digit)
      decreases digit - j + 2
    {
      tmp := tmp + [j];
      j := j + 2;
    }
  }

  /** A copy of row with the product row written into the non-zero
   *  positions (taylor.go:184-189). */
  method PlaceRow(row: seq<int>, indices: seq<int>, nrow: seq<int>) returns (r: seq<int>)
    requires |indices| == |nrow| && InRange(indices, |row|)
    ensures r == Place(row, indices, nrow)
  {
    r := row;
    for i := 0 to |indices|
      invariant r == Place(row, indices[..i], nrow[..i])
    {
      assert indices[..i + 1][..i] == indices[..i] && nrow[..i + 1][..i] == nrow[..i];
      r := r[indices[i] := nrow[i]];
    }
    assert indices[..|indices|] == indices && nrow[..|nrow|] == nrow;
  }

  // ---------------------------------------------------------------------
  // What Disps produces

  /** j, j+2, .. up to d holds exactly the values from j to d of j's parity. */
  lemma {:induction false} StepsMembers(j: int, d: int, x: int)
    ensures x in Steps(j, d) <==> j <= x <= d && (x - j) % 2 == 0
    decreases d - j + 2
  {
    if j <= d {
      StepsMembers(j + 2, d, x);
      assert (x - j) % 2 == (x - (j + 2)) % 2;
    }
  }

  /** -d, -d+2, .., d has d+1 values, and none when d is negative. */
  lemma {:induction false} StepsCount(j: int, d: int)
    ensures |Steps(j, d)| == if j > d then 0 else (d - j) / 2 + 1
    decreases d - j + 2
  {
    if j <= d {
      StepsCount(j + 2, d);
    }
  }

  /** y is one of the displacements of row: zero where row is zero, and
   *  one of -d, -d+2, .., d where row holds d != 0. */
  predicate DispOf(y: seq<int>, row: seq<int>) {
    |y| == |row| &&
    forall t :: 0 <= t < |row| ==> if row[t] == 0 then y[t] == 0 else y[t] in Steps(-row[t], row[t])
  }

  lemma {:induction false} NonZeroMembers(row: seq<int>, p: int)
    ensures p in NonZeroAt(row) <==> 0 <= p < |row| && row[p] != 0
    decreases |row|
  {
    if row != [] {
      var init := row[..|row| - 1];
      NonZeroMembers(init, p);
    }
  }

  /** Place writes vals[t] at idx[t] and leaves every other position alone. */
  lemma {:induction false} PlaceAt(row: seq<int>, idx: seq<int>, vals: seq<int>)
    requires |idx| == |vals| && InRange(idx, |row|)
    requires forall a, b :: 0 <= a < b < |idx| ==> idx[a] < idx[b]
    ensures forall t :: 0 <= t < |idx| ==> Place(row, idx, vals)[idx[t]] == vals[t]
    ensures forall p :: 0 <= p < |row| && p !in idx ==> Place(row, idx, vals)[p] == row[p]
    decreases |idx|
  {
    if idx != [] {
      var k := |idx| - 1;
      PlaceAt(row, idx[..k], vals[..k]);
      forall t | 0 <= t < k ensures Place(row, idx, vals)[idx[t]] == vals[t] {
        assert idx[..k][t] == idx[t] && vals[..k][t] == vals[t];
      }
      forall p | 0 <= p < |row| && p !in idx ensures Place(row, idx, vals)[p] == row[p] {
        assert p !in idx[..k];
      }
    }
  }

  /** The displacements of a row are exactly the rows DispOf describes;
   *  an all-zero row is its own single displacement. */
  lemma RowDispsMembers(row: seq<int>, y: seq<int>)
    ensures y in RowDisps(row) <==> DispOf(y, row)
  {
    if y in RowDisps(row) {
      RowDispsSound(row, y);
    }
    if DispOf(y, row) {
      RowDispsComplete(row, y);
    }
  }

  lemma NonZeroAll(row: seq<int>)
    ensures forall p :: p in NonZeroAt(row) <==> 0 <= p < |row| && row[p] != 0
  {
    forall p ensures p in NonZeroAt(row) <==> 0 <= p < |row| && row[p] != 0 {
      NonZeroMembers(row, p);
    }
  }

  lemma RowDispsSound(row: seq<int>, y: seq<int>)
    requires y in RowDisps(row)
    ensures DispOf(y, row)
  {
    var idx := NonZeroAt(row);
    NonZeroAll(row);
    if idx != [] {
      var values := At(row, idx);
      var pools := Pools(values);
      ProductShape(pools);
      var prod := Product(pools);
      var q :| 0 <= q < |prod| && y == Place(row, idx, prod[q]);
      var nr := prod[q];
      ProductMembers(pools, nr);
      PlaceAt(row, idx, nr);
      PicksPlaced(row, idx, nr, y);
    }
  }

  /** Placing a pick from the pools of row's non-zero digits gives a
   *  displacement of row. */
  lemma PicksPlaced(row: seq<int>, idx: seq<int>, nr: seq<int>, y: seq<int>)
    requires forall p :: p in idx <==> 0 <= p < |row| && row[p] != 0
    requires InRange(idx, |row|) && |y| == |row|
    requires Picks(nr, Pools(At(row, idx)))
    requires forall t :: 0 <= t < |idx| ==> y[idx[t]] == nr[t]
    requires forall p :: 0 <= p < |row| && p !in idx ==> y[p] == row[p]
    ensures DispOf(y, row)
  {
    forall t | 0 <= t < |row| && row[t] != 0 ensures y[t] in Steps(-row[t], row[t]) {
      var s :| 0 <= s < |idx| && idx[s] == t;
      assert nr[s] in Pools(At(row, idx))[s];
    }
  }

  lemma RowDispsComplete(row: seq<int>, y: seq<int>)
    requires DispOf(y, row)
    ensures y in RowDisps(row)
  {
    var idx := NonZeroAt(row);
    NonZeroAll(row);
    if idx == [] {
      assert y == row;
    } else {
      var pools := Pools(At(row, idx));
      ProductShape(pools);
      var prod := Product(pools);
      var nr := At(y, idx);
      DispPicks(row, idx, y);
      ProductMembers(pools, nr);
      var q :| 0 <= q < |prod| && prod[q] == nr;
      PlaceAt(row, idx, nr);
      PlacedBack(row, idx, y);
      assert RowDisps(row)[q] == y;
    }
  }

  /** The values a displacement holds at the non-zero positions are a pick
   *  from the pools. */
  lemma DispPicks(row: seq<int>, idx: seq<int>, y: seq<int>)
    requires InRange(idx, |row|) && DispOf(y, row)
    requires forall t :: 0 <= t < |idx| ==> row[idx[t]] != 0
    ensures Picks(At(y, idx), Pools(At(row, idx)))
  {
  }

  /** Writing a displacement's own values back into row gives it back. */
  lemma PlacedBack(row: seq<int>, idx: seq<int>, y: seq<int>)
    requires forall p :: p in idx <==> 0 <= p < |row| && row[p] != 0
    requires InRange(idx, |row|) && DispOf(y, row)
    requires forall t :: 0 <= t < |idx| ==> Place(row, idx, At(y, idx))[idx[t]] == At(y, idx)[t]
    requires forall p :: 0 <= p < |row| && p !in idx ==> Place(row, idx, At(y, idx))[p] == row[p]
    ensures Place(row, idx, At(y, idx)) == y
  {
    var z := Place(row, idx, At(y, idx));
    forall p | 0 <= p < |row| ensures z[p] == y[p] {
      if p in idx {
        var s :| 0 <= s < |idx| && idx[s] == p;
      }
    }
  }

  /** A row with non-zero digits has one displacement per choice of
   *  values, the product of the pool sizes. */
  lemma RowDispsCount(row: seq<int>)
    requires NonZeroAt(row) != []
    ensures |RowDisps(row)| == Count(Pools(At(row, NonZeroAt(row))))
  {
    ProductCount(Pools(At(row, NonZeroAt(row))));
  }

  /** y is a displacement of one of the rows fcs. */
  predicate FromSome(y: seq<int>, fcs: seq<seq<int>>) {
    exists f :: 0 <= f < |fcs| && DispOf(y, fcs[f])
  }

  lemma FromSomeSnoc(y: seq<int>, fcs: seq<seq<int>>)
    requires fcs != []
    ensures FromSome(y, fcs) <==> FromSome(y, fcs[..|fcs| - 1]) || DispOf(y, fcs[|fcs| - 1])
  {
    var init := fcs[..|fcs| - 1];
    if FromSome(y, fcs) {
      var f :| 0 <= f < |fcs| && DispOf(y, fcs[f]);
      if f < |init| {
        assert init[f] == fcs[f];
      }
    }
    if FromSome(y, init) {
      var f :| 0 <= f < |init| && DispOf(y, init[f]);
      assert fcs[f] == init[f];
    }
  }

  /** Disps lists, for each input row in turn, its displacements (and
   *  without dups each of them once, by FirstsDistinct). */
  lemma {:induction false} AllDispsMembers(fcs: seq<seq<int>>, y: seq<int>)
    ensures y in AllDisps(fcs) <==> FromSome(y, fcs)
    decreases |fcs|
  {
    if fcs != [] {
      AllDispsMembers(fcs[..|fcs| - 1], y);
      RowDispsMembers(fcs[|fcs| - 1], y);
      FromSomeSnoc(y, fcs);
    }
  }

  // ---------------------------------------------------------------------
  // MakeDisps

  /** One row as MakeDisps prints it: the entries joined by ",". */
  function RowText(row: seq<int>): string {
    Join(Texts(row), ",")
  }

  function RowTexts(disps: seq<seq<int>>): (r: seq<string>)
    ensures |r| == |disps| && forall k :: 0 <= k < |disps| ==> r[k] == RowText(disps[k])
  {
    seq(|disps|, k requires 0 <= k < |disps| => RowText(disps[k]))
  }

  /** MakeDisps (taylor.go:138-150), with the writer as the returned text. */
  method MakeDisps(disps: seq<seq<int>>) returns (w: string)
    ensures w == Lines(RowTexts(disps))
  {
    w := "";
    for k := 0 to |disps|
      invariant w == Lines(RowTexts(disps[..k]))
    {
      var line := FormatRow(disps[k]);
      RowTextsSnoc(disps, k);
      w := w + line + "\n";
    }
    assert disps[..|disps|] == disps;
  }

  lemma RowTextsSnoc(disps: seq<seq<int>>, k: int)
    requires 0 <= k < |disps|
    ensures RowTexts(disps[..k + 1]) == RowTexts(disps[..k]) + [RowText(disps[k])]
  {
    var a := RowTexts(disps[..k + 1]);
    var b := RowTexts(disps[..k]) + [RowText(disps[k])];
    forall j | 0 <= j <= k ensures a[j] == b[j] {
      assert disps[..k + 1][j] == disps[j];
    }
  }

  /** The inner loop of MakeDisps (taylor.go:141-147). */
  method FormatRow(row: seq<int>) returns (line: string)
    ensures line == RowText(row)
  {
    var lrow := |row| - 1;
    line := "";
    for i := 0 to |row|
      invariant line == if i == 0 then "" else RowText(row[..i]) + (if i < |row| then "," else "")
    {
      TextsSnoc(row, i);
      if i > 0 {
        JoinSnoc(Texts(row[..i]), IntToString(row[i]), ",");
      }
      line := line + IntToString(row[i]);
      if i < lrow {
        line := line + ",";
      }
    }
    assert row[..|row|] == row;
  }

  /** Reads MakeDisps's text back: one row per line, entries split at ",". */
  function ParseDisps(text: string): seq<seq<int>> {
    var lines := Split(text, "\n");
    seq(|lines| - 1, k requires 0 <= k < |lines| - 1 => ParseInts(Split(lines[k], ",")))
  }

  function ParseInts(ps: seq<string>): (r: seq<int>)
    ensures |r| == |ps| && forall t :: 0 <= t < |ps| ==> r[t] == ParseInt(ps[t])
  {
    seq(|ps|, t requires 0 <= t < |ps| => ParseInt(ps[t]))
  }

  lemma LinesCons(p: string, rest: seq<string>)
    ensures Lines([p] + rest) == p + "\n" + Lines(rest)
    decreases |rest|
  {
    if rest != [] {
      var init := rest[..|rest| - 1];
      LinesCons(p, init);
      assert ([p] + rest)[..|rest|] == [p] + init;
    }
  }

  /** Splitting newline-terminated lines free of newlines gives the lines
   *  and one empty piece after the last newline. */
  lemma {:induction false} SplitLines(parts: seq<string>)
    requires forall k :: 0 <= k < |parts| ==> NoNewline(parts[k])
    ensures Split(Lines(parts), "\n") == parts + [""]
    decreases |parts|
  {
    if parts == [] {
      SplitNone("", '\n');
    } else {
      SplitLines(parts[1..]);
      LinesCons(parts[0], parts[1..]);
      assert parts == [parts[0]] + parts[1..];
      SplitLine(parts[0], Lines(parts[1..]), parts[1..] + [""]);
    }
  }

  /** Splitting pieces joined by c, none containing c, gives the pieces. */
  lemma {:induction false} SplitJoin(parts: seq<string>, c: char)
    requires parts != []
    requires forall k, t :: 0 <= k < |parts| && 0 <= t < |parts[k]| ==> parts[k][t] != c
    ensures Split(Join(parts, [c]), [c]) == parts
    decreases |parts|
  {
    if |parts| == 1 {
      SplitNone(parts[0], c);
    } else {
      SplitJoin(parts[1..], c);
      JoinCons(parts[0], parts[1..], [c]);
      assert parts == [parts[0]] + parts[1..];
      SplitCons(parts[0], c, Join(parts[1..], [c]));
    }
  }

  lemma TextsPlain(row: seq<int>)
    ensures forall k, t :: 0 <= k < |row| && 0 <= t < |Texts(row)[k]| ==>
      Texts(row)[k][t] != ',' && Texts(row)[k][t] != '\n'
  {
    forall k, t | 0 <= k < |row| && 0 <= t < |Texts(row)[k]|
      ensures Texts(row)[k][t] != ',' && Texts(row)[k][t] != '\n'
    {
      var x := row[k];
      var n: nat := if x < 0 then -x else x;
      NoDash(n);
    }
  }

  lemma RowTextNoNewline(row: seq<int>)
    ensures NoNewline(RowText(row))
  {
    TextsPlain(row);
    JoinChars(Texts(row), ",", '\n');
  }

  lemma {:induction false} JoinChars(parts: seq<string>, sep: string, c: char)
    requires c !in sep
    requires forall k, t :: 0 <= k < |parts| && 0 <= t < |parts[k]| ==> parts[k][t] != c
    ensures forall t :: 0 <= t < |Join(parts, sep)| ==> Join(parts, sep)[t] != c
    decreases |parts|
  {
    if |parts| > 1 {
      JoinChars(parts[1..], sep, c);
      assert forall k, t :: 0 <= k < |parts[1..]| && 0 <= t < |parts[1..][k]| ==> parts[1..][k][t] == parts[k + 1][t];
    }
  }

  /** Reading the text MakeDisps writes gives the rows back, provided no
   *  row is empty (an empty row prints as an empty line). */
  lemma MakeDispsRoundTrip(disps: seq<seq<int>>)
    requires forall k :: 0 <= k < |disps| ==> disps[k] != []
    ensures ParseDisps(Lines(RowTexts(disps))) == disps
  {
    var texts := RowTexts(disps);
    forall k | 0 <= k < |texts| ensures NoNewline(texts[k]) {
      RowTextNoNewline(disps[k]);
    }
    SplitLines(texts);
    var lines := Split(Lines(texts), "\n");
    forall k | 0 <= k < |disps| ensures ParseInts(Split(lines[k], ",")) == disps[k] {
      var row := disps[k];
      TextsPlain(row);
      assert lines[k] == Join(Texts(row), [',']);
      SplitJoin(Texts(row), ',');
      forall t | 0 <= t < |row| ensures ParseInt(Texts(row)[t]) == row[t] {
        ParseIntToString(row[t]);
      }
    }
  }
}
