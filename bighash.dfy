/** bighash.go: the table of energies keyed by geometry, which lets a
 *  geometry met twice be computed once. Go stores pointers to Energy
 *  records; here the table holds the records themselves. */
module BigHash {
  import opened Text

  /** Not in the table; in it but not computed yet; computed. */
  datatype Status = NotPresent | NotCalculated | Calculated

  datatype Energy = Energy(status: Status, value: real)

  /** The geometry a table lookup uses; the symmetry reduction it is meant
   *  to perform is not written yet, so it is the geometry itself. */
  function Normalize(geom: string): (r: string)
    ensures |r| == |geom| && forall k :: 0 <= k < |geom| ==> r[k] == geom[k]
  {
    geom
  }

  /** What Lookup reports, and the table it leaves: an absent geometry is
   *  entered as not yet calculated and reported as not present with value
   *  zero; a present one is reported as stored. */
  datatype Found = Found(norm: string, status: Status, value: real)

  function Looked(table: map<string, Energy>, geom: string): (Found, map<string, Energy>) {
    if geom !in table then (Found(Normalize(geom), NotPresent, 0.0), table[geom := Energy(NotCalculated, 0.0)])
    else (Found(Normalize(geom), table[geom].status, table[geom].value), table)
  }

  /** No stored record says NotPresent: Lookup only ever stores
   *  NotCalculated, and the driver later marks records calculated. */
  predicate Stored(table: map<string, Energy>) {
    forall g :: g in table ==> table[g].status != NotPresent
  }

  class Table {
    var entries: map<string, Energy>

    /** make(BigHash): empty. */
    constructor ()
      ensures entries == map[]
    {
      entries := map[];
    }

    method Lookup(geom: string) returns (norm: string, status: Status, value: real)
      modifies this
      ensures (Found(norm, status, value), entries) == Looked(old(entries), geom)
    {
      norm := Normalize(geom);
      if geom !in entries {
        entries := entries[geom := Energy(NotCalculated, 0.0)];
        status, value := NotPresent, 0.0;
        return;
      }
      var e := entries[geom];
      status, value := e.status, e.value;
    }

    /** The stored record, or None where Go returns nil. */
    function At(geom: string): (r: Option<Energy>)
      reads this
      ensures r.Some? <==> geom in entries
      ensures r.Some? ==> r.value == entries[geom]
    {
      if geom in entries then Some(entries[geom]) else None
    }
  }

  /** On a table that keeps to Stored, a lookup keeps to it and reports
   *  NotPresent exactly for an absent geometry, leaves
   *  every other entry as it was, and afterwards the geometry is present:
   *  a new one as not yet calculated, an old one unchanged. */
  lemma LookedEntries(table: map<string, Energy>, geom: string)
    requires Stored(table)
    ensures var (f, t) := Looked(table, geom);
      && Stored(t)
      && (f.status == NotPresent <==> geom !in table)
      && f.norm == geom
      && geom in t
      && (geom !in table ==> t[geom] == Energy(NotCalculated, 0.0) && f.value == 0.0)
      && (geom in table ==> t == table && f.status == table[geom].status && f.value == table[geom].value)
      && t.Keys == table.Keys + {geom}
      && forall g :: g in table ==> g in t && t[g] == table[g]
  {
    var (f, t) := Looked(table, geom);
    if geom !in table {
      assert t == table[geom := Energy(NotCalculated, 0.0)];
      assert f.status == NotPresent;
    } else {
      assert t == table;
      assert f.status == table[geom].status;
    }
  }

  /** Looking a geometry up twice: the second lookup changes nothing and
   *  no longer reports NotPresent; after a first lookup of a new geometry
   *  it reports NotCalculated. */
  lemma LookupTwice(table: map<string, Energy>, geom: string)
    requires Stored(table)
    ensures var (f1, t1) := Looked(table, geom);
      var (f2, t2) := Looked(t1, geom);
      && t2 == t1
      && f2.status != NotPresent
      && (f1.status == NotPresent ==> f2.status == NotCalculated)
  {
    LookedEntries(table, geom);
    var (f1, t1) := Looked(table, geom);
    LookedEntries(t1, geom);
  }
}
