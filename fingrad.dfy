/** fingrad.go: the stencil of a second derivative taken from analytic
 *  gradients, one step either way along a single coordinate. The table is
 *  evaluated as findiff.go's tables are, by FinDiff.Build. */
module FinGrad {
  import opened HashName
  import opened FinDiff

  /** The literal of GradMake2D: {1, HashName(), [i], [i]} and
   *  {-1, HashName(), [-i], [i]}. */
  function GradTable(i: int): Stencil {
    Stencil([i], [H(1, [i]), H(-1, [-i])])
  }

  /** The same table as Make1D's first-derivative stencil, so it has
   *  everything Table1Sound proves: coefficients summing to zero, two named
   *  rows, each one step along i. */
  lemma GradTableSound(i: int)
    ensures GradTable(i) == Table1(i)
    ensures Sound(GradTable(i), [i])
    ensures Hashed(GradTable(i).rows) == 2 && CoeffSum(GradTable(i).rows) == 0
  {
    Table1Sound(i);
    D1Counts(i);
  }

  /** The literal names only four fields, so Scale keeps its zero value. */
  method GradMake2D(jobs: JobCounter, i: int) returns (protos: seq<Proto>)
    modifies jobs
    ensures protos == Protos(GradTable(i), 0.0, old(jobs.jobNum))
    ensures jobs.jobNum == old(jobs.jobNum) + 2
  {
    GradTableSound(i);
    protos := Build(jobs, GradTable(i), 0.0);
  }

  /** The slice GradMake2D returns when the counter stood at n: two
   *  calculations with coefficients 1 and -1, one step forward and one
   *  back along i, both indexed by [i], under the two consecutive job names,
   *  which differ; the coefficients cancel. */
  lemma GradProtos(i: int, n: nat)
    ensures var ps := Protos(GradTable(i), 0.0, n);
      && ps == [Proto(1, JobName(n), [i], [i], 0.0), Proto(-1, JobName(n + 1), [-i], [i], 0.0)]
      && ps[0].name != ps[1].name
      && ProtoSum(ps) == 0
  {
    var st := GradTable(i);
    GradTableSound(i);
    HashedStep(st.rows, 0);
    assert st.rows[..0] == [];
    NamedAt(st, 0.0, n, 2, 0);
    NamedAt(st, 0.0, n, 2, 1);
    JobNameInjective(n, n + 1);
    NamedSum(st, 0.0, n, 2);
    assert st.rows[..2] == st.rows;
  }
}
