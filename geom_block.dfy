/** The `geometry={ … }` block rule shared by scripts/mktest.py and both fake
 *  Molpro executables: a line containing "geometry={" opens the block (even
 *  when it is already open), and while it is open a line containing "}"
 *  closes it. Lines are scanned in order. */
module GeomBlock {
  import opened Text

  predicate Opens(line: string) {
    Contains(line, "geometry={")
  }

  /** A line that ends an open block. */
  predicate Closes(line: string) {
    !Opens(line) && Contains(line, "}")
  }

  /** Whether the block is open after line, given whether it was before. */
  function After(open: bool, line: string): bool {
    if Opens(line) then true
    else if open && Contains(line, "}") then false
    else open
  }

  /** Whether the block is open after all of ls, starting outside it. */
  function InBlock(ls: seq<string>): bool
    decreases |ls|
  {
    if ls == [] then false else After(InBlock(ls[..|ls| - 1]), ls[|ls| - 1])
  }

  /** Reference definition: some line before k opened a block and no line
   *  since then closed it. */
  predicate OpenBefore(ls: seq<string>, k: int)
    requires 0 <= k <= |ls|
  {
    exists o :: 0 <= o < k && Opens(ls[o]) && forall m :: o < m < k ==> !Closes(ls[m])
  }

  /** Line k lies inside a block and is neither an opener nor a closer:
   *  the lines the scripts treat as geometry. */
  predicate Body(ls: seq<string>, k: int)
    requires 0 <= k < |ls|
  {
    OpenBefore(ls, k) && !Opens(ls[k]) && !Contains(ls[k], "}")
  }

  lemma OpenBeforeStep(ls: seq<string>, k: nat)
    requires k < |ls|
    ensures OpenBefore(ls, k + 1) <==> Opens(ls[k]) || (OpenBefore(ls, k) && !Closes(ls[k]))
  {
    if OpenBefore(ls, k + 1) && !Opens(ls[k]) {
      var o :| 0 <= o < k + 1 && Opens(ls[o]) && forall m :: o < m < k + 1 ==> !Closes(ls[m]);
      assert o < k;
      assert OpenBefore(ls, k);
    }
    if OpenBefore(ls, k) && !Closes(ls[k]) {
      var o :| 0 <= o < k && Opens(ls[o]) && forall m :: o < m < k ==> !Closes(ls[m]);
      assert forall m :: o < m < k + 1 ==> !Closes(ls[m]);
    }
  }

  /** The scanning state agrees with the reference definition. */
  lemma {:induction false} InBlockIff(ls: seq<string>, k: nat)
    requires k <= |ls|
    ensures InBlock(ls[..k]) <==> OpenBefore(ls, k)
    decreases k
  {
    if k > 0 {
      InBlockIff(ls, k - 1);
      assert ls[..k][..k - 1] == ls[..k - 1];
      OpenBeforeStep(ls, k - 1);
    }
  }

  /** Whether the block is open before line k, computed line by line as
   *  the scanners do. */
  function OpenAt(ls: seq<string>, k: nat): bool
    requires k <= |ls|
  {
    if k == 0 then false else After(OpenAt(ls, k - 1), ls[k - 1])
  }

  /** Line k is a body line, by the scanning state. */
  predicate InBody(ls: seq<string>, k: nat)
    requires k < |ls|
  {
    OpenAt(ls, k) && !Opens(ls[k]) && !Contains(ls[k], "}")
  }

  /** The scanning state agrees with the reference definition, so InBody
   *  and Body pick the same lines. */
  lemma {:induction false} OpenAtIff(ls: seq<string>, k: nat)
    requires k <= |ls|
    ensures OpenAt(ls, k) <==> OpenBefore(ls, k)
    ensures k < |ls| ==> (InBody(ls, k) <==> Body(ls, k))
    decreases k
  {
    if k > 0 {
      OpenAtIff(ls, k - 1);
      OpenBeforeStep(ls, k - 1);
    }
  }
}
