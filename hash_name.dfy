/** molpro.go: HashName, the source of every job's file name. The Go code
 *  keeps the counter in the package variable jobNum; here it is the field
 *  of a JobCounter object that every caller shares. */
module HashName {
  import opened Text

  /** "job." followed by the counter written with at least ten digits,
   *  zero-padded, as fmt.Sprintf("job.%010d", n) prints it. */
  function JobName(n: nat): (r: string)
    ensures |r| >= 14 && r[..4] == "job."
  {
    "job." + ZeroPad(n, 10)
  }

  /** The counter a job name was made from: the inverse of JobName. */
  function JobNumber(name: string): nat {
    if |name| >= 4 then ParseNat(name[4..]) else 0
  }

  lemma JobNumberOfName(n: nat)
    ensures JobNumber(JobName(n)) == n
  {
    assert JobName(n)[4..] == ZeroPad(n, 10);
    ParseZeroPad(n, 10);
  }

  /** Different counters give different names. */
  lemma JobNameInjective(a: nat, b: nat)
    ensures JobName(a) == JobName(b) <==> a == b
  {
    JobNumberOfName(a);
    JobNumberOfName(b);
  }

  /** No job name is the "E0" placeholder of the reference energy. */
  lemma JobNameNotE0(n: nat)
    ensures JobName(n) != "E0"
  {
    assert |"E0"| == 2;
  }

  class JobCounter {
    var jobNum: nat

    /** Go's zero value: the first name is job.0000000000. */
    constructor ()
      ensures jobNum == 0
    {
      jobNum := 0;
    }

    /** The name for the current count; the deferred increment then moves
     *  the counter on, so the next call names a different job. */
    method Next() returns (name: string)
      modifies this
      ensures name == JobName(old(jobNum))
      ensures jobNum == old(jobNum) + 1
    {
      name := JobName(jobNum);
      jobNum := jobNum + 1;
    }
  }
}
