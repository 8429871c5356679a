/** queue.go: choosing a node for a chunk of jobs and submitting the chunk.
 *  The driver's globals that these functions update (Global.Nodes, the
 *  submitted counter, ptsJobs, paraJobs and paraCount) are the fields of
 *  a Driver object. The cluster is outside the model: the node list that
 *  PBSnodes reports and the job id that Submit returns are parameters,
 *  and the PBS file WritePBS writes is returned as a Job record. */
module Queue {
  import opened Text

  /** The fields of a Calc that Push reads or stamps. */
  datatype Calc = Calc(name: string, noRun: bool, subFile: string, chunkNum: int, jobID: string)

  /** The fields of the PBS job written for a chunk that come from Push;
   *  the CPU count and memory are copied from the configuration. */
  datatype Job = Job(name: string, filename: string, jobs: seq<string>, host: string, queue: string)

  /** SelectNode's answer; OutOfRange is the index panic on a node entry
   *  without ":" that is taken. */
  datatype Selected = Selected(node: string, queue: string) | OutOfRange

  /** SelectNode on the node list and the configured queue; pbsNodes is
   *  what PBSnodes reports, read only when the list is empty. Returns the
   *  answer and the list left behind. */
  function Select(nodes: seq<string>, confQueue: string, pbsNodes: seq<string>): (Selected, seq<string>) {
    var ns := if |nodes| == 0 then pbsNodes else nodes;
    if |ns| > 0 then
      var tmp := Split(ns[0], ":");
      if confQueue == "" || tmp[0] == confQueue then
        if |tmp| < 2 then (OutOfRange, ns)
        else (Selected(tmp[1], tmp[0]), ns[1..])
      else (Selected("", confQueue), ns)
    else (Selected("", confQueue), ns)
  }

  /** The names of the input files of the calcs that run, in order. */
  function Inputs(cs: seq<Calc>): seq<string>
    decreases |cs|
  {
    if cs == [] then []
    else Inputs(cs[..|cs| - 1]) + (if cs[|cs| - 1].noRun then [] else [cs[|cs| - 1].name + ".inp"])
  }

  /** main<pf>.pbs in dir. */
  function SubFile(dir: string, pf: int): string {
    dir + "/main" + IntToString(pf) + ".pbs"
  }

  class Driver {
    var nodes: seq<string>
    var submitted: int
    var ptsJobs: seq<string>
    var paraJobs: seq<string>
    var paraCount: map<string, int>

    constructor (nodes0: seq<string>)
      ensures nodes == nodes0 && submitted == 0 && ptsJobs == [] && paraJobs == [] && paraCount == map[]
    {
      nodes := nodes0;
      submitted := 0;
      ptsJobs := [];
      paraJobs := [];
      paraCount := map[];
    }

    method SelectNode(confQueue: string, pbsNodes: seq<string>) returns (s: Selected)
      modifies this
      ensures (s, nodes) == Select(old(nodes), confQueue, pbsNodes)
      ensures submitted == old(submitted) && ptsJobs == old(ptsJobs) && paraJobs == old(paraJobs) && paraCount == old(paraCount)
    {
      var queue := confQueue;
      var node := "";
      if |nodes| == 0 {
        nodes := pbsNodes;
      }
      if |nodes| > 0 {
        var tmp := Split(nodes[0], ":");
        if queue == "" || tmp[0] == queue {
          if |tmp| < 2 {
            return OutOfRange;
          }
          node := tmp[1];
          queue := tmp[0];
          nodes := nodes[1..];
        }
      }
      s := Selected(node, queue);
    }

    /** Push: every calc is stamped with the chunk's PBS file, its number
     *  and the job id Submit returned; the calcs that run are counted as
     *  submitted and their inputs listed in the job; the job id joins
     *  ptsJobs and paraJobs and expects chunkSize results. job is None
     *  when SelectNode panics. */
    method Push(dir: string, pf: int, calcs: array<Calc>, confQueue: string, pbsNodes: seq<string>,
                jobName: string, jobid: string, chunkSize: int) returns (job: Option<Job>)
      modifies this, calcs
      ensures var (sel, rest) := Select(old(nodes), confQueue, pbsNodes);
        && (job.None? <==> sel.OutOfRange?)
        && (job.Some? ==>
              && nodes == rest
              && job.value == Job(jobName, SubFile(dir, pf), Inputs(old(calcs[..])), sel.node, sel.queue)
              && submitted == old(submitted) + |Inputs(old(calcs[..]))|
              && ptsJobs == old(ptsJobs) + [jobid]
              && paraJobs == old(paraJobs) + [jobid]
              && paraCount == old(paraCount)[jobid := chunkSize]
              && forall c :: 0 <= c < calcs.Length ==>
                   calcs[c] == old(calcs[c]).(subFile := SubFile(dir, pf), chunkNum := pf, jobID := jobid))
    {
      var subfile := SubFile(dir, pf);
      var jobs := StampChunk(calcs, subfile, pf);
      var s := SelectNode(confQueue, pbsNodes);
      if s.OutOfRange? {
        return None;
      }
      job := Some(Job(jobName, subfile, jobs, s.node, s.queue));
      ptsJobs := ptsJobs + [jobid];
      paraJobs := paraJobs + [jobid];
      paraCount := paraCount[jobid := chunkSize];
      StampJobID(calcs, subfile, jobid);
    }

    /** Push's first loop: the PBS file and chunk number go on every calc,
     *  and each calc that runs is counted and its input listed. */
    method StampChunk(calcs: array<Calc>, subfile: string, pf: int) returns (jobs: seq<string>)
      modifies this, calcs
      ensures jobs == Inputs(old(calcs[..]))
      ensures submitted == old(submitted) + |jobs|
      ensures nodes == old(nodes) && ptsJobs == old(ptsJobs) && paraJobs == old(paraJobs) && paraCount == old(paraCount)
      ensures forall m :: 0 <= m < calcs.Length ==> calcs[m] == old(calcs[m]).(subFile := subfile, chunkNum := pf)
    {
      ghost var orig := calcs[..];
      jobs := [];
      var c := 0;
      while c < calcs.Length
        invariant c <= calcs.Length
        invariant forall m :: 0 <= m < c ==> calcs[m] == orig[m].(subFile := subfile, chunkNum := pf)
        invariant forall m :: c <= m < calcs.Length ==> calcs[m] == orig[m]
        invariant jobs == Inputs(orig[..c])
        invariant submitted == old(submitted) + |jobs|
        invariant nodes == old(nodes) && ptsJobs == old(ptsJobs) && paraJobs == old(paraJobs) && paraCount == old(paraCount)
      {
        calcs[c] := calcs[c].(subFile := subfile, chunkNum := pf);
        assert orig[..c + 1][..c] == orig[..c];
        if !calcs[c].noRun {
          submitted := submitted + 1;
          jobs := jobs + [calcs[c].name + ".inp"];
        }
        c := c + 1;
      }
      assert orig[..c] == orig;
    }
  }

  /** Push's last loop: the job id (and the PBS file again) on every calc. */
  method StampJobID(calcs: array<Calc>, subfile: string, jobid: string)
    modifies calcs
    ensures forall m :: 0 <= m < calcs.Length ==> calcs[m] == old(calcs[m]).(jobID := jobid, subFile := subfile)
  {
    var c := 0;
    while c < calcs.Length
      invariant c <= calcs.Length
      invariant forall m :: 0 <= m < c ==> calcs[m] == old(calcs[m]).(jobID := jobid, subFile := subfile)
      invariant forall m :: c <= m < calcs.Length ==> calcs[m] == old(calcs[m])
    {
      calcs[c] := calcs[c].(jobID := jobid, subFile := subfile);
      c := c + 1;
    }
  }

  /** A head entry "q:n" (n without ":") on the configured queue, or with
   *  no queue configured, is taken: the node is n, the queue q, and the
   *  entry leaves the list. */
  lemma SelectTakes(nodes: seq<string>, confQueue: string, pbsNodes: seq<string>, q: string, n: string)
    requires nodes != [] && nodes[0] == q + ":" + n
    requires !Contains(q, ":") && !Contains(n, ":")
    requires confQueue == "" || confQueue == q
    ensures Select(nodes, confQueue, pbsNodes) == (Selected(n, q), nodes[1..])
  {
    SplitPair(q, n);
  }

  /** A head entry on another queue is left in place, and the configured
   *  queue comes back with no node. */
  lemma SelectKeeps(nodes: seq<string>, confQueue: string, pbsNodes: seq<string>, q: string, n: string)
    requires nodes != [] && nodes[0] == q + ":" + n
    requires !Contains(q, ":") && !Contains(n, ":")
    requires confQueue != "" && confQueue != q
    ensures Select(nodes, confQueue, pbsNodes) == (Selected("", confQueue), nodes)
  {
    SplitPair(q, n);
  }

  /** An empty list is refilled from PBSnodes before the choice. */
  lemma SelectRefills(confQueue: string, pbsNodes: seq<string>)
    ensures Select([], confQueue, pbsNodes) == Select(pbsNodes, confQueue, pbsNodes)
  {
  }

  lemma SplitPair(q: string, n: string)
    requires !Contains(q, ":") && !Contains(n, ":")
    ensures Split(q + ":" + n, ":") == [q, n]
  {
    var s := q + ":" + n;
    assert OccursAt(s, ":", |q|);
    forall j | 0 <= j < |q|
      ensures !OccursAt(s, ":", j)
    {
      if OccursAt(s, ":", j) {
        assert s[j..j + 1] == q[j..j + 1];
        OccursContains(q, ":", j);
      }
    }
    assert Index(s, ":") == |q|;
    assert s[..|q|] == q && s[|q| + 1..] == n;
  }

  /** Chunking does not change the job lists: the inputs of two runs of
   *  calcs are those of each, one after the other. */
  lemma {:induction false} InputsAppend(a: seq<Calc>, b: seq<Calc>)
    ensures Inputs(a + b) == Inputs(a) + Inputs(b)
    decreases |b|
  {
    if b != [] {
      var init := b[..|b| - 1];
      assert (a + b)[..|a + b| - 1] == a + init;
      InputsAppend(a, init);
    } else {
      assert a + b == a;
    }
  }

  /** At most one input per calc, and one for every calc exactly when none
   *  of them is marked not to run. */
  lemma {:induction false} InputsCount(cs: seq<Calc>)
    ensures |Inputs(cs)| <= |cs|
    ensures |Inputs(cs)| == |cs| <==> forall c :: 0 <= c < |cs| ==> !cs[c].noRun
    decreases |cs|
  {
    if cs != [] {
      var init := cs[..|cs| - 1];
      InputsCount(init);
      if forall c :: 0 <= c < |init| ==> !init[c].noRun {
        if !cs[|cs| - 1].noRun {
          forall c | 0 <= c < |cs| ensures !cs[c].noRun {
            if c < |init| { assert cs[c] == init[c]; }
          }
        }
      } else {
        var c :| 0 <= c < |init| && init[c].noRun;
        assert cs[c] == init[c];
      }
    }
  }
}
