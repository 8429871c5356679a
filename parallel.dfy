/** parallel.go: reading GNU parallel's log and progress files to decide
 *  whether a chunk must be resubmitted. A file is given by its contents;
 *  ioutil.ReadFile's error is ignored by the source, so a missing file
 *  reads as the empty text. */
module Parallel {
  import opened Text

  /** The contents ReadFile returns, None for a missing file. */
  function Read(file: Option<string>): string {
    if file.Some? then file.value else ""
  }

  /** CheckLog on the contents of cmdfile+".log": the job has not been
   *  logged. */
  function CheckLog(log: Option<string>, jobname: string): (r: bool)
    ensures r <==> !exists i :: OccursAt(Read(log), jobname, i)
  {
    ContainsIff(Read(log), jobname);
    !Contains(Read(log), jobname)
  }

  /** A missing log holds no job name but the empty one. */
  lemma CheckLogMissing(jobname: string)
    ensures CheckLog(None, jobname) <==> jobname != ""
  {
    if jobname == "" {
      assert OccursAt("", jobname, 0);
    }
  }

  // ---------------------------------------------------------------------
  // CheckProg

  /** A segment holding the header's "1:local" entry, whose 14th field is
   *  the job limit. */
  predicate MaxSegment(seg: string) {
    Contains(seg, "1:local")
  }

  /** A "local:" segment that is not a header: byte 6 is the running count. */
  predicate CurSegment(seg: string) {
    !MaxSegment(seg) && Contains(seg, "local:")
  }

  /** The index panics: a header with fewer than 14 fields, or a count
   *  segment shorter than 7 bytes. */
  predicate OutOfRange(seg: string) {
    (MaxSegment(seg) && |Fields(seg)| < 14) || (CurSegment(seg) && |seg| < 7)
  }

  /** `v, _ := strconv.Atoi(s)`: 0 where Atoi fails. */
  function AtoiOr0(s: string): int {
    match Atoi(s)
    case Some(v) => v
    case None => 0
  }

  datatype Jobs = Jobs(cur: int, max: int)

  /** The loop's variables after the segments: None once one panics. */
  function Scan(segs: seq<string>): Option<Jobs>
    decreases |segs|
  {
    if segs == [] then Some(Jobs(0, 0))
    else
      match Scan(segs[..|segs| - 1])
      case None => None
      case Some(j) =>
        var seg := segs[|segs| - 1];
        if MaxSegment(seg) then
          var fields := Fields(seg);
          if |fields| < 14 then None else Some(j.(max := AtoiOr0(fields[13])))
        else if CurSegment(seg) then
          if |seg| < 7 then None else Some(j.(cur := AtoiOr0([seg[6]])))
        else Some(j)
  }

  /** CheckProg on the contents of cmdfile+".prog": the file is split on
   *  carriage returns, and the chunk is stuck when some but not all of
   *  its job slots are running. None is the index panic. */
  method CheckProg(prog: Option<string>) returns (r: Option<bool>)
    ensures Scan(Split(Read(prog), "\r")).None? <==> r.None?
    ensures r.Some? ==> r.value == (0 < Scan(Split(Read(prog), "\r")).value.cur < Scan(Split(Read(prog), "\r")).value.max)
  {
    var lines := Split(Read(prog), "\r");
    var curjobs, maxjobs := 0, 0;
    var n := 0;
    while n < |lines|
      invariant n <= |lines|
      invariant Scan(lines[..n]) == Some(Jobs(curjobs, maxjobs))
    {
      assert lines[..n + 1][..n] == lines[..n];
      var line := lines[n];
      if Contains(line, "1:local") {
        var fields := Fields(line);
        if |fields| < 14 {
          ScanNone(lines, n);
          return None;
        }
        maxjobs := AtoiOr0(fields[13]);
      } else if Contains(line, "local:") {
        if |line| < 7 {
          ScanNone(lines, n);
          return None;
        }
        curjobs := AtoiOr0([line[6]]);
      }
      n := n + 1;
    }
    assert lines[..n] == lines;
    r := Some(curjobs < maxjobs && curjobs > 0);
  }

  /** Once a segment panics, the whole scan has. */
  lemma {:induction false} ScanNone(segs: seq<string>, n: nat)
    requires n < |segs| && Scan(segs[..n]).Some? && OutOfRange(segs[n])
    ensures Scan(segs).None?
    decreases |segs|
  {
    if n + 1 == |segs| {
      assert segs[..n] == segs[..|segs| - 1];
    } else {
      assert segs[..|segs| - 1][..n] == segs[..n];
      ScanNone(segs[..|segs| - 1], n);
    }
  }

  /** The last segment, among the first n, that p selects; -1 if none. */
  function LastWhere(segs: seq<string>, n: nat, p: string -> bool): (k: int)
    requires n <= |segs|
    ensures -1 <= k < n && (k >= 0 ==> p(segs[k]))
    ensures forall m :: k < m < n ==> !p(segs[m])
  {
    if n == 0 then -1 else if p(segs[n - 1]) then n - 1 else LastWhere(segs, n - 1, p)
  }

  /** The scan succeeds exactly when no segment panics. */
  lemma {:induction false} ScanOk(segs: seq<string>)
    ensures Scan(segs).Some? <==> forall m :: 0 <= m < |segs| ==> !OutOfRange(segs[m])
    decreases |segs|
  {
    if segs != [] {
      var init := segs[..|segs| - 1];
      ScanOk(init);
      assert forall m :: 0 <= m < |init| ==> init[m] == segs[m];
    }
  }

  /** What a successful scan reads: the limit is field 14 of the last
   *  header segment and the count byte 6 of the last count segment (0
   *  where there is none or where Atoi fails). */
  lemma {:induction false} ScanValues(segs: seq<string>)
    requires Scan(segs).Some?
    ensures var km := LastWhere(segs, |segs|, MaxSegment);
      km >= 0 ==> |Fields(segs[km])| >= 14
    ensures var kc := LastWhere(segs, |segs|, CurSegment);
      kc >= 0 ==> |segs[kc]| >= 7
    ensures var km := LastWhere(segs, |segs|, MaxSegment);
      Scan(segs).value.max == (if km < 0 then 0 else AtoiOr0(Fields(segs[km])[13]))
    ensures var kc := LastWhere(segs, |segs|, CurSegment);
      Scan(segs).value.cur == (if kc < 0 then 0 else AtoiOr0([segs[kc][6]]))
    decreases |segs|
  {
    if segs != [] {
      var init := segs[..|segs| - 1];
      ScanValues(init);
      LastWhereInit(segs, MaxSegment);
      LastWhereInit(segs, CurSegment);
      var km := LastWhere(init, |init|, MaxSegment);
      var kc := LastWhere(init, |init|, CurSegment);
      if km >= 0 { assert segs[km] == init[km]; }
      if kc >= 0 { assert segs[kc] == init[kc]; }
    }
  }

  lemma LastWhereInit(segs: seq<string>, p: string -> bool)
    requires segs != []
    ensures LastWhere(segs, |segs|, p) ==
      if p(segs[|segs| - 1]) then |segs| - 1 else LastWhere(segs[..|segs| - 1], |segs| - 1, p)
  {
    var init := segs[..|segs| - 1];
    if !p(segs[|segs| - 1]) {
      LastWhereSame(segs, init, |segs| - 1, p);
    }
  }

  lemma {:induction false} LastWhereSame(a: seq<string>, b: seq<string>, n: nat, p: string -> bool)
    requires n <= |a| && n <= |b| && a[..n] == b[..n]
    ensures LastWhere(a, n, p) == LastWhere(b, n, p)
    decreases n
  {
    if n > 0 {
      assert a[n - 1] == a[..n][n - 1];
      assert a[..n - 1] == a[..n][..n - 1];
      assert b[..n - 1] == b[..n][..n - 1];
      LastWhereSame(a, b, n - 1, p);
    }
  }

  /** A digit at byte 6 is read as its value; any other byte as 0. */
  lemma CountDigit(c: char)
    ensures AtoiOr0([c]) == if '0' <= c <= '9' then c as int - '0' as int else 0
  {
    assert [c][..0] == [];
    if c == '+' || c == '-' {
      assert [c][1..] == [];
      assert Atoi([c]).None?;
    } else if '0' <= c <= '9' {
      assert Decimal([c]);
      assert ParseNat([c]) == DigitValue(c);
    } else {
      assert [c][0] == c && !('0' <= [c][0] <= '9');
    }
  }
}
