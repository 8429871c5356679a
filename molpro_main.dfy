/** molpro/molpro.go: the second fake Molpro executable. Its tables are
 *  JSON texts (the fixture files written by scripts/mktest.py), decoded one
 *  after the other into a single map by Go's `encoding/json`; the key
 *  extraction and the output are those of qsub/molpro.go.
 *
 *  The embedded JSON files, the positional arguments, the input file and
 *  whether the output file can be created are parameters. */
module MolproMain {
  import opened Text
  import opened Json
  import opened FakeMolpro

  // ---------------------------------------------------------------------
  // json.Unmarshal into map[string]Calc

  /** Names equal up to ASCII case, the rule that lets a member name that
   *  is not exactly a field's name still select it. */
  predicate FoldEq(a: string, b: string) {
    |a| == |b| && forall i :: 0 <= i < |a| ==> Lower(a[i]) == Lower(b[i])
  }

  datatype Field = EnergyField | GradientField | NoField

  /** The Calc field a member name selects; other names are ignored. */
  function FieldOf(name: string): Field {
    if name == "Energy" then EnergyField
    else if name == "Gradient" then GradientField
    else if FoldEq(name, "Energy") then EnergyField
    else if FoldEq(name, "Gradient") then GradientField
    else NoField
  }

  /** A float64 decoded over prev: null leaves it, a number is parsed, any
   *  other value is a type error. */
  function FloatOf(v: Value, prev: real, toFloat: string -> Option<real>): Option<real> {
    match v
    case Null => Some(prev)
    case Number(t) => toFloat(t)
    case _ => None
  }

  /** The elements of a JSON array decoded into a fresh []float64. */
  function FloatsOf(items: seq<Value>, toFloat: string -> Option<real>): (r: Option<seq<real>>)
    ensures r.Some? ==> |r.value| == |items|
    decreases |items|
  {
    if items == [] then Some([])
    else
      match FloatsOf(items[..|items| - 1], toFloat)
      case None => None
      case Some(xs) =>
        match FloatOf(items[|items| - 1], 0.0, toFloat)
        case None => None
        case Some(x) => Some(xs + [x])
  }

  /** The Gradient field: null gives the nil slice, an array its elements. */
  function GradientOf(v: Value, toFloat: string -> Option<real>): Option<seq<real>> {
    match v
    case Null => Some([])
    case Array(items) => FloatsOf(items, toFloat)
    case _ => None
  }

  /** One member of an entry stored into c. */
  function Assign(c: Calc, m: Member, toFloat: string -> Option<real>): Option<Calc> {
    match FieldOf(m.name)
    case EnergyField =>
      (match FloatOf(m.value, c.energy, toFloat)
       case None => None
       case Some(x) => Some(c.(energy := x)))
    case GradientField =>
      (match GradientOf(m.value, toFloat)
       case None => None
       case Some(g) => Some(c.(gradient := g)))
    case NoField => Some(c)
  }

  /** The members of an entry stored in order into the zero Calc. */
  function Fill(ms: seq<Member>, toFloat: string -> Option<real>): Option<Calc>
    decreases |ms|
  {
    if ms == [] then Some(Calc(0.0, []))
    else
      match Fill(ms[..|ms| - 1], toFloat)
      case None => None
      case Some(c) => Assign(c, ms[|ms| - 1], toFloat)
  }

  /** One map element: null is the zero Calc, an object fills one. */
  function CalcOf(v: Value, toFloat: string -> Option<real>): Option<Calc> {
    match v
    case Null => Some(Calc(0.0, []))
    case Object(ms) => Fill(ms, toFloat)
    case _ => None
  }

  /** The members of the top-level object stored in order into geoms;
   *  entries already there stay unless a member replaces them. */
  function Into(geoms: map<string, Calc>, ms: seq<Member>, toFloat: string -> Option<real>): Option<map<string, Calc>>
    decreases |ms|
  {
    if ms == [] then Some(geoms)
    else
      match Into(geoms, ms[..|ms| - 1], toFloat)
      case None => None
      case Some(g) =>
        var m := ms[|ms| - 1];
        match CalcOf(m.value, toFloat)
        case None => None
        case Some(c) => Some(g[m.name := c])
  }

  /** json.Unmarshal(text, &geoms): None for a syntax or type error. A
   *  top-level null empties the map. */
  function Unmarshal(text: string, geoms: map<string, Calc>, toFloat: string -> Option<real>): Option<map<string, Calc>> {
    match Decode(text)
    case None => None
    case Some(Null) => Some(map[])
    case Some(Object(ms)) => Into(geoms, ms, toFloat)
    case Some(_) => None
  }

  /** The index of the last member named k, or -1. */
  function LastNamed(ms: seq<Member>, k: string): (r: int)
    ensures -1 <= r < |ms|
    ensures r >= 0 ==> ms[r].name == k
    ensures forall t :: r < t < |ms| ==> ms[t].name != k
    decreases |ms|
  {
    if ms == [] then -1
    else if ms[|ms| - 1].name == k then |ms| - 1
    else LastNamed(ms[..|ms| - 1], k)
  }

  /** Unmarshal keeps old entries: after a successful decode a key is
   *  present iff it was before or some member names it, and its value is
   *  decoded from the last member naming it, or is the old one. */
  lemma {:induction false} IntoLookup(geoms: map<string, Calc>, ms: seq<Member>, k: string, toFloat: string -> Option<real>)
    requires Into(geoms, ms, toFloat).Some?
    ensures var r := Into(geoms, ms, toFloat).value;
      && (k in r <==> k in geoms || LastNamed(ms, k) >= 0)
      && (LastNamed(ms, k) >= 0 ==> Some(r[k]) == CalcOf(ms[LastNamed(ms, k)].value, toFloat))
      && (LastNamed(ms, k) < 0 && k in geoms ==> r[k] == geoms[k])
    decreases |ms|
  {
    if ms != [] {
      IntoLookup(geoms, ms[..|ms| - 1], k, toFloat);
    }
  }

  /** Every member must decode: one bad value fails the whole text. */
  lemma {:induction false} IntoFails(geoms: map<string, Calc>, ms: seq<Member>, t: nat, toFloat: string -> Option<real>)
    requires t < |ms| && CalcOf(ms[t].value, toFloat).None?
    ensures Into(geoms, ms, toFloat).None?
    decreases |ms|
  {
    if t < |ms| - 1 {
      IntoFails(geoms, ms[..|ms| - 1], t, toFloat);
    }
  }

  /** and when every member value decodes, the whole text does. */
  lemma {:induction false} IntoOk(geoms: map<string, Calc>, ms: seq<Member>, toFloat: string -> Option<real>)
    requires forall t :: 0 <= t < |ms| ==> CalcOf(ms[t].value, toFloat).Some?
    ensures Into(geoms, ms, toFloat).Some?
    decreases |ms|
  {
    if ms != [] {
      var init := ms[..|ms| - 1];
      assert forall t :: 0 <= t < |init| ==> init[t] == ms[t];
      IntoOk(geoms, init, toFloat);
    }
  }

  /** With distinct names, the last member naming ms[p] is ms[p] itself. */
  lemma LastNamedDistinct(ms: seq<Member>, p: nat)
    requires p < |ms|
    requires forall s, t :: 0 <= s < t < |ms| ==> ms[s].name != ms[t].name
    ensures LastNamed(ms, ms[p].name) == p
  {
    var r := LastNamed(ms, ms[p].name);
    assert p <= r;
  }

  /** An entry as the fixture script prints it: a number for Energy and
   *  null for Gradient. */
  lemma CalcOfEntry(num: string, x: real, toFloat: string -> Option<real>)
    requires toFloat(num) == Some(x)
    ensures CalcOf(Object([Member("Energy", Number(num)), Member("Gradient", Null)]), toFloat) == Some(Calc(x, []))
  {
    var ms := [Member("Energy", Number(num)), Member("Gradient", Null)];
    assert ms[..1][..0] == [];
    assert Fill(ms[..1], toFloat) == Some(Calc(x, []));
  }

  /** Field names match up to ASCII case: "energy" also sets Energy. */
  lemma FoldedName()
    ensures FieldOf("energy") == EnergyField && FieldOf("GRADIENT") == GradientField
    ensures FieldOf("Energies") == NoField
  {
    assert FoldEq("energy", "Energy");
    assert FoldEq("GRADIENT", "Gradient");
  }

  // ---------------------------------------------------------------------
  // main (molpro/molpro.go:33-103)

  /** The three embedded tables decoded in the order cart, sic, grad. */
  function Tables(cart: string, sic: string, grad: string, toFloat: string -> Option<real>): Option<map<string, Calc>> {
    match Unmarshal(cart, map[], toFloat)
    case None => None
    case Some(g1) =>
      match Unmarshal(sic, g1, toFloat)
      case None => None
      case Some(g2) => Unmarshal(grad, g2, toFloat)
  }

  /** What main does. */
  function MainRun(cart: string, sic: string, grad: string, args: seq<string>, input: Option<seq<string>>,
                   creatable: bool, toFloat: string -> Option<real>, fmt12: real -> string, fmt15: real -> string): Outcome
  {
    match Tables(cart, sic, grad, toFloat)
    case None => Outcome(None, Exited(2))
    case Some(geoms) =>
      if |args| < 1 then Outcome(None, Panicked("not enough arguments in call to molpro"))
      else Run(geoms, args[0], input, creatable, fmt12, fmt15)
  }

  method RunMain(cart: string, sic: string, grad: string, args: seq<string>, input: Option<seq<string>>,
              creatable: bool, toFloat: string -> Option<real>, fmt12: real -> string, fmt15: real -> string)
    returns (o: Outcome)
    ensures o == MainRun(cart, sic, grad, args, input, creatable, toFloat, fmt12, fmt15)
  {
    var geoms: map<string, Calc> := map[];
    var r := Unmarshal(cart, geoms, toFloat);
    if r.None? {
      return Outcome(None, Exited(2));
    }
    geoms := r.value;
    r := Unmarshal(sic, geoms, toFloat);
    if r.None? {
      return Outcome(None, Exited(2));
    }
    geoms := r.value;
    r := Unmarshal(grad, geoms, toFloat);
    if r.None? {
      return Outcome(None, Exited(2));
    }
    geoms := r.value;
    if |args| < 1 {
      return Outcome(None, Panicked("not enough arguments in call to molpro"));
    }
    o := Molpro(geoms, args[0], input, creatable, fmt12, fmt15);
  }

  /** How main ends: 2 when a table does not decode, a panic without an
   *  argument, then the statuses of the run on args[0]. */
  lemma MainStatus(cart: string, sic: string, grad: string, args: seq<string>, input: Option<seq<string>>,
                   creatable: bool, toFloat: string -> Option<real>, fmt12: real -> string, fmt15: real -> string)
    ensures var o := MainRun(cart, sic, grad, args, input, creatable, toFloat, fmt12, fmt15);
      && (o.status == Exited(2) <==> Tables(cart, sic, grad, toFloat).None?)
      && (o.status.Panicked? <==> Tables(cart, sic, grad, toFloat).Some? && |args| == 0)
      && (o.status == Exited(0) <==>
            Tables(cart, sic, grad, toFloat).Some? && |args| > 0 && input.Some? && creatable &&
            Key(input.value, |input.value|) in Tables(cart, sic, grad, toFloat).value)
  {
    if Tables(cart, sic, grad, toFloat).Some? && |args| > 0 {
      RunStatus(Tables(cart, sic, grad, toFloat).value, args[0], input, creatable, fmt12, fmt15);
    }
  }
}
