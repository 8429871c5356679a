/** The keyword array of config.go: one Keyword (the pattern of its input
 *  key, its extractor and its value) per Key, At and Set on it, the
 *  extractors of the Conf table, and WhichCluster, WhichProgram,
 *  ProcessGeom and ParseDeltas over it. The package variables flags and
 *  nocheck that the extractors and WhichProgram set are held beside the
 *  array. strconv.ParseFloat is a parameter. */
module ConfigFile {
  import opened Text
  import opened Deltas
  import MainFile
  import InputFile

  // ---------------------------------------------------------------------
  // Keys

  const Cluster := 0
  const ChemProg := 1
  const Queue := 2
  const Delta := 3
  const DeltasKey := 4
  const Geometry := 5
  const GeomType := 6
  const Flags := 7
  const Deriv := 8
  const JobLimit := 9
  const ChunkSize := 10
  const CheckInt := 11
  const SleepInt := 12
  const NumJobs := 13
  const IntderCmd := 14
  const AnpassCmd := 15
  const SpectroCmd := 16
  const Ncoords := 17
  const EnergyLine := 18
  const PBS := 19
  const MolproTmpl := 20
  const AnpassTmpl := 21
  const IntderTmpl := 22
  /** One past the last key: the length of the array. */
  const NumKeys := 23

  /** A key that indexes the array; any other Key panics on indexing. */
  predicate IsKey(k: int) {
    0 <= k < NumKeys
  }

  /** The names Key.String returns, in key order. */
  const KeyNames: seq<string> := [
    "Cluster", "ChemProg", "Queue", "Delta", "Deltas", "Geometry", "GeomType", "Flags", "Deriv",
    "JobLimit", "ChunkSize", "CheckInt", "SleepInt", "NumJobs", "IntderCmd", "AnpassCmd", "SpectroCmd",
    "Ncoords", "EnergyLine", "PBS", "MolproTmpl", "AnpassTmpl", "IntderTmpl"]

  /** Key.String: the name of k, or None for the index panic of any k
   *  outside the array, NumKeys included. */
  function KeyString(k: int): (r: Option<string>)
    ensures r.Some? <==> IsKey(k)
    ensures r.Some? ==> r.value == KeyNames[k]
  {
    if 0 <= k < |KeyNames| then Some(KeyNames[k]) else None
  }

  // ---------------------------------------------------------------------
  // Keywords

  /** The dynamic values a Keyword holds: nil, a string, a float64, an
   *  int, a []float64, or a compiled pattern (kept as its text). */
  datatype Value = Nil | Str(s: string) | Flt(f: real) | Int(i: int) | Floats(fs: seq<real>) | Pattern(re: string)

  /** The Extract functions of the Conf table; NoExtract is a nil one. */
  datatype Extractor = NoExtract | StringKw | FloatKw | IntKw | QueueKw | FlagsKw | CheckIntKw

  /** A Keyword: the pattern of the input key (None for nil), its
   *  extractor and its value. */
  datatype Keyword = Keyword(re: Option<string>, extract: Extractor, value: Value)

  /** A key that the Conf literal leaves out: all zero. */
  const Zero := Keyword(None, NoExtract, Nil)

  /** The Conf literal, in key order. */
  const Conf: seq<Keyword> := [
    Keyword(Some("(?i)queuetype="), StringKw, Str("maple")),
    Keyword(Some("(?i)program="), StringKw, Str("sic")),
    Keyword(Some("(?i)queue="), QueueKw, Str("")),
    Keyword(Some("(?i)delta="), FloatKw, Flt(0.005)),
    Keyword(Some("(?i)deltas="), StringKw, Nil),
    Keyword(Some("(?i)geometry="), StringKw, Nil),
    Keyword(Some("(?i)geomtype="), StringKw, Str("zmat")),
    Keyword(Some("(?i)flags="), FlagsKw, Nil),
    Keyword(Some("(?i)deriv="), IntKw, Int(4)),
    Keyword(Some("(?i)joblimit="), IntKw, Int(1024)),
    Keyword(Some("(?i)chunksize="), IntKw, Int(64)),
    Keyword(Some("(?i)checkint="), CheckIntKw, Int(100)),
    Keyword(Some("(?i)sleepint="), IntKw, Int(60)),
    Keyword(Some("(?i)numjobs="), IntKw, Int(8)),
    Keyword(Some("(?i)intder="), StringKw, Nil),
    Keyword(Some("(?i)anpass="), StringKw, Nil),
    Keyword(Some("(?i)spectro="), StringKw, Nil),
    Zero,
    Keyword(None, NoExtract, Pattern("energy=")),
    Zero,
    Keyword(Some("(?i)molprotmpl="), StringKw, Str("molpro.in")),
    Keyword(Some("(?i)anpasstmpl="), StringKw, Str("anpass.in")),
    Keyword(Some("(?i)intdertmpl="), StringKw, Str("intder.in"))]

  /** The type an extractor produces. */
  predicate Fits(e: Extractor, v: Value) {
    match e
    case NoExtract => true
    case StringKw => v.Str?
    case QueueKw => v.Str?
    case FlagsKw => v.Str?
    case FloatKw => v.Flt?
    case IntKw => v.Int?
    case CheckIntKw => v.Int?
  }

  /** What an extractor makes of the text after the key; None for its
   *  panic. A nil extractor panics when called. */
  function Extracted(e: Extractor, str: string, parseFloat: string -> Option<real>): (r: Option<Value>)
    ensures r.Some? ==> Fits(e, r.value)
  {
    match e
    case NoExtract => None
    case StringKw => Some(Str(str))
    case FloatKw => (match parseFloat(str) case None => None case Some(f) => Some(Flt(f)))
    case IntKw => (match Atoi(str) case None => None case Some(i) => Some(Int(i)))
    case QueueKw => if str == "workq" || str == "r410" || str == "" then Some(Str(str)) else None
    case FlagsKw => if str == "noopt" then Some(Str(str)) else None
    case CheckIntKw =>
      if str == "no" then Some(Int(0))
      else (match Atoi(str) case None => None case Some(i) => Some(Int(i)))
  }

  /** Every default in Conf is nil or of the type its extractor produces,
   *  so a later extraction never changes a key's type. */
  lemma ConfFits()
    ensures |Conf| == NumKeys
    ensures forall k :: 0 <= k < NumKeys ==> Conf[k].value.Nil? || Fits(Conf[k].extract, Conf[k].value)
  {
  }

  /** The queue extractor accepts exactly "workq", "r410" and "". */
  lemma QueueAccepts(str: string, parseFloat: string -> Option<real>)
    ensures Extracted(QueueKw, str, parseFloat).Some? <==> str in {"workq", "r410", ""}
    ensures Extracted(QueueKw, str, parseFloat).Some? ==> Extracted(QueueKw, str, parseFloat).value == Str(str)
  {
  }

  /** The checkint extractor maps "no" to 0 and parses anything else as
   *  an int. */
  lemma CheckIntNo(str: string, parseFloat: string -> Option<real>)
    ensures str == "no" ==> Extracted(CheckIntKw, str, parseFloat) == Some(Int(0))
    ensures str != "no" ==> Extracted(CheckIntKw, str, parseFloat) == Extracted(IntKw, str, parseFloat)
  {
  }

  /** The flags extractor accepts only "noopt", which turns the
   *  optimization off and leaves the other procedures alone. */
  lemma FlagsNoopt(str: string, parseFloat: string -> Option<real>)
    ensures Extracted(FlagsKw, str, parseFloat).Some? <==> str == "noopt"
    ensures Extracted(FlagsKw, str, parseFloat).Some? ==> Extracted(FlagsKw, str, parseFloat).value == Str("noopt")
  {
  }

  /** "noopt" turns the optimization off and leaves the other four
   *  procedures as they were; any other text leaves every bit alone. */
  lemma NooptClears(flags: bv64, str: string, c: bv64)
    requires MainFile.IsBit(c)
    ensures MainFile.Has(Flagged(FlagsKw, str, flags), c) <==> MainFile.Has(flags, c) && (str != "noopt" || c != MainFile.Opt)
  {
    if str == "noopt" {
      MainFile.ClearBit(flags, MainFile.Opt, c);
    }
  }

  /** The flags after an extraction: "noopt" clears OPT (flags &^ OPT). */
  function Flagged(e: Extractor, str: string, flags: bv64): bv64 {
    if e == FlagsKw && str == "noopt" then flags & !MainFile.Opt else flags
  }

  // ---------------------------------------------------------------------
  // WhichCluster and WhichProgram

  /** A case-insensitive match of an unanchored literal pattern t (in lower
   *  case) against s. */
  predicate MatchFold(s: string, t: string) {
    Contains(ToLower(s), t)
  }

  datatype ClusterPick = Maple | Sequoia

  /** The cluster switch: "" or a maple match picks maple, otherwise a
   *  sequoia match picks sequoia; None for the panic, and for a value
   *  that is not a string. */
  function ClusterOf(v: Value): Option<ClusterPick> {
    match v
    case Str(s) =>
      if s == "" || MatchFold(s, "maple") then Some(Maple)
      else if MatchFold(s, "sequoia") then Some(Sequoia)
      else None
    case _ => None
  }

  /** The pattern sequoia's energy line is set to. */
  const SequoiaEnergyLine := "PBQFF\\(2\\)"

  /** The cluster match ignores case. */
  lemma ClusterIgnoresCase(s: string)
    ensures ClusterOf(Str(ToLower(s))) == ClusterOf(Str(s))
  {
    InputFile.LowerTwice(s);
    assert ToLower(s) == "" <==> s == "";
  }

  /** The empty cluster picks maple, and anything naming maple picks it
   *  before sequoia is looked at. */
  lemma MapleFirst(s: string)
    requires s == "" || MatchFold(s, "maple")
    ensures ClusterOf(Str(s)) == Some(Maple)
  {
  }

  /** The program switch of the configuration, as input.go's WhichProgram
   *  kinds; None for the panic, and for a value that is not a string. */
  function ProgramOf(v: Value): Option<InputFile.ProgramKind> {
    match v
    case Str(p) =>
      if p == "cccr" then Some(InputFile.Cccr)
      else if p == "cart" || p == "gocart" then Some(InputFile.Cart)
      else if p == "grad" then Some(InputFile.Grad)
      else if p == "molpro" || p == "" || p == "sic" then Some(InputFile.Sic)
      else None
    case _ => None
  }

  /** Both WhichProgram versions accept the same program names and pick
   *  the same kind. */
  lemma ProgramsAgree(c: InputFile.ConfigState)
    ensures ProgramOf(Str(c.program)) == match InputFile.Program(c) case None => None case Some(r) => Some(r.0)
  {
  }

  // ---------------------------------------------------------------------
  // ProcessGeom and ParseDeltas

  /** ProcessGeom's count and cart flag: after the two header lines three
   *  per line without "=" for "xyz" or "cart", one per such line for
   *  "zmat"; None for a nil or non-string geometry, an unknown type, and
   *  the slice panic of an "xyz" geometry with fewer than two lines. */
  function GeomOf(geom: Value, geomType: Value): Option<(int, bool)> {
    match geom
    case Str(g) =>
      var lines := Split(g, "\n");
      if geomType == Str("xyz") || geomType == Str("cart") then
        if |lines| < 2 then None else Some((3 * InputFile.CountPlain(lines[2..]), true))
      else if geomType == Str("zmat") then Some((InputFile.CountPlain(lines), false))
      else None
    case _ => None
  }

  /** For a non-empty geometry both ProcessGeom versions count the same;
   *  input.go's also panics on the empty one, which this one counts as a
   *  single z-matrix line. */
  lemma GeomAgrees(g: string, t: string)
    ensures g != "" ==> GeomOf(Str(g), Str(t)) == InputFile.GeomCount(g, t)
    ensures GeomOf(Str(""), Str("zmat")) == Some((1, false))
  {
    assert Split("", "\n") == [""];
    assert InputFile.CountPlain([""]) == 1 by {
      assert [""][..0] == [];
    }
  }

  /** ParseDeltas's result: the Deltas text applied with Delta's step and
   *  padded to Ncoords; None for a nil or non-string Deltas, a Delta that
   *  is not a float or an Ncoords that is not an int (each of which the
   *  loops reach on every input that gets that far), and the "invalid
   *  deltas input" panic. */
  function DeltasFor(ks: seq<Keyword>, parseFloat: string -> Option<real>): Option<seq<real>>
    requires |ks| == NumKeys
  {
    if ks[DeltasKey].value.Str? && ks[Delta].value.Flt? && ks[Ncoords].value.Int? then
      FromPairs(ks[DeltasKey].value.s, ks[Delta].value.f, ks[Ncoords].value.i, parseFloat)
    else None
  }

  /** ParseDeltas succeeds exactly when the three keys have their types
   *  and every pair parses. */
  lemma DeltasForIff(ks: seq<Keyword>, parseFloat: string -> Option<real>)
    requires |ks| == NumKeys
    ensures !(ks[DeltasKey].value.Str? && ks[Delta].value.Flt? && ks[Ncoords].value.Int?) ==> DeltasFor(ks, parseFloat).None?
    ensures ks[DeltasKey].value.Str? && ks[Delta].value.Flt? && ks[Ncoords].value.Int? ==> (
      var pieces := Split(ks[DeltasKey].value.s, ",");
      DeltasFor(ks, parseFloat).Some? <==> forall i :: 0 <= i < |pieces| ==> Pair(pieces[i], parseFloat).Some?)
  {
    if ks[DeltasKey].value.Str? && ks[Delta].value.Flt? && ks[Ncoords].value.Int? {
      FromPairsIff(ks[DeltasKey].value.s, ks[Delta].value.f, ks[Ncoords].value.i, parseFloat);
    }
  }

  /** On success each position holds the step of the last pair naming it,
   *  or Delta. */
  lemma DeltasForAt(ks: seq<Keyword>, parseFloat: string -> Option<real>)
    requires |ks| == NumKeys && DeltasFor(ks, parseFloat).Some?
    ensures ks[DeltasKey].value.Str? && ks[Delta].value.Flt?
    ensures var r := DeltasFor(ks, parseFloat).value;
      var ps := Parsed(Pairs(Split(ks[DeltasKey].value.s, ","), parseFloat)).value;
      forall k :: 0 <= k < |r| ==> r[k] == LastFor(ps, k + 1, ks[Delta].value.f)
  {
    FromPairsAt(ks[DeltasKey].value.s, ks[Delta].value.f, ks[Ncoords].value.i, parseFloat);
  }

  /** An empty Deltas text panics: unlike input.go's ParseDeltas, nothing
   *  treats it as "no pairs". */
  lemma EmptyDeltasPanic(ks: seq<Keyword>, parseFloat: string -> Option<real>)
    requires |ks| == NumKeys && ks[DeltasKey].value == Str("")
    ensures DeltasFor(ks, parseFloat) == None
  {
    if ks[Delta].value.Flt? && ks[Ncoords].value.Int? {
      EmptyPanics(ks[Delta].value.f, ks[Ncoords].value.i, parseFloat);
    }
  }

  // ---------------------------------------------------------------------
  // The configuration

  class Config {
    /** The keyword array. */
    var kws: array<Keyword>
    /** The package variables the extractors and WhichProgram set. */
    var flags: bv64
    var nocheck: bool

    predicate Valid()
      reads this
    {
      kws.Length == NumKeys
    }

    /** The Conf variable, with the flags ParseFlags chose. */
    constructor (flags: bv64)
      ensures Valid() && fresh(kws) && kws[..] == Conf && this.flags == flags && !nocheck
    {
      kws := new Keyword[NumKeys](i requires 0 <= i < NumKeys => Conf[i]);
      this.flags := flags;
      nocheck := false;
    }

    /** At: the value of k; None for the index panic. */
    function At(k: int): (r: Option<Value>)
      reads this, kws
      requires Valid()
      ensures r.Some? <==> IsKey(k)
      ensures r.Some? ==> r.value == kws[k].value
    {
      if 0 <= k < kws.Length then Some(kws[k].value) else None
    }

    /** Set: the value of k replaced, nothing else changed; false for the
     *  index panic. */
    method Set(k: int, v: Value) returns (ok: bool)
      requires Valid()
      modifies kws
      ensures Valid() && ok == IsKey(k)
      ensures ok ==> At(k) == Some(v) && kws[k].re == old(kws[k].re) && kws[k].extract == old(kws[k].extract)
      ensures forall j :: IsKey(j) && j != k ==> kws[j] == old(kws[j])
    {
      if !(0 <= k < kws.Length) {
        return false;
      }
      kws[k] := kws[k].(value := v);
      ok := true;
    }

    /** One key's extractor applied to the text after the key: the value,
     *  or None for its panic (or the index panic); "noopt" clears OPT and
     *  checkint "no" sets nocheck. The array is not changed. */
    method Extract(k: int, str: string, parseFloat: string -> Option<real>) returns (v: Option<Value>)
      requires Valid()
      modifies this
      ensures kws == old(kws) && Valid()
      ensures IsKey(k) ==> (v == Extracted(kws[k].extract, str, parseFloat) &&
        flags == Flagged(kws[k].extract, str, old(flags)) &&
        nocheck == (old(nocheck) || (kws[k].extract == CheckIntKw && str == "no")))
      ensures !IsKey(k) ==> v == None && flags == old(flags) && nocheck == old(nocheck)
    {
      if !(0 <= k < kws.Length) {
        return None;
      }
      var e := kws[k].extract;
      v := Extracted(e, str, parseFloat);
      if e == FlagsKw && str == "noopt" {
        flags := flags & !MainFile.Opt;
      }
      if e == CheckIntKw && str == "no" {
        nocheck := true;
      }
    }

    /** WhichCluster: the PBS template for the cluster, and sequoia's
     *  energy line; false for its panic, with nothing changed. */
    method WhichCluster(pbsMaple: string, pbsSequoia: string) returns (ok: bool)
      requires Valid()
      modifies kws
      ensures Valid()
      ensures ok == ClusterOf(old(kws[Cluster].value)).Some?
      ensures ok ==> (
        var pick := ClusterOf(old(kws[Cluster].value)).value;
        At(PBS) == Some(Str(if pick == Maple then pbsMaple else pbsSequoia)) &&
        At(EnergyLine) == Some(if pick == Sequoia then Pattern(SequoiaEnergyLine) else old(kws[EnergyLine].value)))
      ensures forall j :: IsKey(j) && j != PBS && j != EnergyLine ==> kws[j] == old(kws[j])
      ensures !ok ==> kws[PBS] == old(kws[PBS]) && kws[EnergyLine] == old(kws[EnergyLine])
    {
      var pick := ClusterOf(kws[Cluster].value);
      if pick.None? {
        return false;
      }
      var pbs := pbsMaple;
      if pick.value == Sequoia {
        var _ := Set(EnergyLine, Pattern(SequoiaEnergyLine));
        pbs := pbsSequoia;
      }
      var _ := Set(PBS, Str(pbs));
      ok := true;
    }

    /** WhichProgram: cccr's energy line, or the CART or GRAD flag; false
     *  for its panic, with nothing changed. */
    method WhichProgram() returns (ok: bool)
      requires Valid()
      modifies this, kws
      ensures Valid() && kws == old(kws) && nocheck == old(nocheck)
      ensures ok == ProgramOf(old(kws[ChemProg].value)).Some?
      ensures ok ==> (
        var kind := ProgramOf(old(kws[ChemProg].value)).value;
        At(EnergyLine) == Some(if kind == InputFile.Cccr then Pattern(InputFile.CccrEnergyLine) else old(kws[EnergyLine].value)) &&
        flags == (if kind == InputFile.Cart then old(flags) | MainFile.Cart
                  else if kind == InputFile.Grad then old(flags) | MainFile.Grad
                  else old(flags)))
      ensures !ok ==> flags == old(flags)
      ensures forall j :: IsKey(j) && j != EnergyLine ==> kws[j] == old(kws[j])
      ensures !ok ==> kws[EnergyLine] == old(kws[EnergyLine])
    {
      var kind := ProgramOf(kws[ChemProg].value);
      if kind.None? {
        return false;
      }
      match kind.value {
        case Cccr =>
          var _ := Set(EnergyLine, Pattern(InputFile.CccrEnergyLine));
        case Cart =>
          flags := flags | MainFile.Cart;
        case Grad =>
          flags := flags | MainFile.Grad;
        case Sic =>
      }
      ok := true;
    }

    /** ProcessGeom: Ncoords set from the geometry; false for its panics,
     *  with nothing changed. */
    method ProcessGeom() returns (ok: bool, cart: bool)
      requires Valid()
      modifies kws
      ensures Valid()
      ensures ok == GeomOf(old(kws[Geometry].value), old(kws[GeomType].value)).Some?
      ensures ok ==> (
        var g := GeomOf(old(kws[Geometry].value), old(kws[GeomType].value)).value;
        cart == g.1 && At(Ncoords) == Some(Int(g.0)))
      ensures forall j :: IsKey(j) && j != Ncoords ==> kws[j] == old(kws[j])
      ensures !ok ==> kws[Ncoords] == old(kws[Ncoords])
    {
      cart := false;
      var geom, gt := kws[Geometry].value, kws[GeomType].value;
      if !geom.Str? {
        return false, cart;
      }
      var lines := Split(geom.s, "\n");
      var start, incr := 0, 0;
      if gt == Str("xyz") || gt == Str("cart") {
        start, cart, incr := 2, true, 3;
      } else if gt == Str("zmat") {
        incr := 1;
      } else {
        return false, cart;
      }
      if start > |lines| {
        return false, cart;
      }
      var n := InputFile.Config.CountLines(lines[start..], incr);
      var _ := Set(Ncoords, Int(n));
      ok := true;
    }

    /** ParseDeltas: Deltas replaced by the parsed steps; false for its
     *  panics, with nothing changed. */
    method ParseDeltas(parseFloat: string -> Option<real>) returns (ok: bool)
      requires Valid()
      modifies kws
      ensures Valid()
      ensures ok == DeltasFor(old(kws[..]), parseFloat).Some?
      ensures ok ==> At(DeltasKey) == Some(Floats(DeltasFor(old(kws[..]), parseFloat).value))
      ensures forall j :: IsKey(j) && j != DeltasKey ==> kws[j] == old(kws[j])
      ensures !ok ==> kws[DeltasKey] == old(kws[DeltasKey])
    {
      var s, delta, ncoords := kws[DeltasKey].value, kws[Delta].value, kws[Ncoords].value;
      ghost var ks := kws[..];
      if !s.Str? || !delta.Flt? || !ncoords.Int? {
        return false;
      }
      var placed := ApplyPairs(Split(s.s, ","), delta.f, parseFloat);
      if placed.None? {
        return false;
      }
      var ret := GrowTo(placed.value, ncoords.i, delta.f);
      assert DeltasFor(ks, parseFloat) == Some(ret);
      var _ := Set(DeltasKey, Floats(ret));
      ok := true;
    }
  }
}
