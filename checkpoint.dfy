/** checkpoint.go: MakeCheckpoint, the snapshot of the force-constant
 *  arrays from which an interrupted run resumes. The JSON encoding and
 *  the file writes are not modelled: each write is the file name and the
 *  array that would be encoded into it. */
module Checkpoint {
  import opened Types

  datatype Written = Written(name: string, values: seq<CountFloat>)

  /** fnames: the file each array of arrs goes to. */
  const FileNames: seq<string> := ["e2d.json", "fc2.json", "fc3.json", "fc4.json"]

  /** What one entry becomes: a Done entry is kept and marked Loaded, any
   *  other becomes the zero CountFloat. */
  function Snapshot(v: CountFloat): CountFloat {
    if Done(v) then v.(loaded := true) else CountFloat(0.0, 0, false)
  }

  /** The entry loop over one array; each v is a copy, so arr itself is
   *  left as it is. */
  method SnapshotArray(arr: seq<CountFloat>) returns (temp: seq<CountFloat>)
    ensures |temp| == |arr|
    ensures forall k :: 0 <= k < |arr| ==> temp[k] == Snapshot(arr[k])
  {
    temp := [];
    var k := 0;
    while k < |arr|
      invariant k <= |arr| && |temp| == k
      invariant forall m :: 0 <= m < k ==> temp[m] == Snapshot(arr[m])
    {
      var v := arr[k];
      if Done(v) {
        v := v.(loaded := true);
        temp := temp + [v];
      } else {
        temp := temp + [CountFloat(0.0, 0, false)];
      }
      k := k + 1;
    }
  }

  /** MakeCheckpoint over the global arrays e2d, fc2, fc3 and fc4: one
   *  write per array, in that order, to its own file. */
  method MakeCheckpoint(e2d: seq<CountFloat>, fc2: seq<CountFloat>, fc3: seq<CountFloat>, fc4: seq<CountFloat>)
    returns (writes: seq<Written>)
    ensures |writes| == 4
    ensures forall a :: 0 <= a < 4 ==> writes[a].name == FileNames[a]
    ensures forall a :: 0 <= a < 4 ==>
      |writes[a].values| == |[e2d, fc2, fc3, fc4][a]| &&
      forall k :: 0 <= k < |writes[a].values| ==> writes[a].values[k] == Snapshot([e2d, fc2, fc3, fc4][a][k])
  {
    var arrs := [e2d, fc2, fc3, fc4];
    writes := [];
    var a := 0;
    while a < |arrs|
      invariant a <= |arrs| && |writes| == a
      invariant forall b :: 0 <= b < a ==> writes[b].name == FileNames[b]
      invariant forall b :: 0 <= b < a ==>
        |writes[b].values| == |arrs[b]| &&
        forall k :: 0 <= k < |writes[b].values| ==> writes[b].values[k] == Snapshot(arrs[b][k])
    {
      var temp := SnapshotArray(arrs[a]);
      writes := writes + [Written(FileNames[a], temp)];
      a := a + 1;
    }
  }

  /** A snapshot entry needs nothing more, is marked Loaded exactly when
   *  the entry was Done, and then holds the entry's value; the others hold
   *  zero and are not Loaded. */
  lemma SnapshotEntry(v: CountFloat)
    ensures Done(Snapshot(v))
    ensures Snapshot(v).loaded <==> Done(v)
    ensures Done(v) ==> Snapshot(v).val == v.val
    ensures !Done(v) ==> Snapshot(v) == CountFloat(0.0, 0, false)
  {
  }
}
