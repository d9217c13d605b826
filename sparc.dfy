/**
 The SPARC calculator adapter (cts_calcs/calculator_sparc.py): the bounded
 retry loop against the SPARC server and its response check, the payloads it
 posts, the request handler that fills defaults in place and dispatches on
 the requested property, and the extractors for the multi-property, pKa and
 logD responses.
 */
module Sparc {
  import opened PyJson
  import opened Transport
  import Calculator

  /** `sparc_props`: SPARC calculation types and the CTS property names. */
  const SparcProps: map<string, string> := map[
    "SOLUBILITY" := "water_sol",
    "VAPOR_PRESSURE" := "vapor_press",
    "WATER_DIFFUSION" := "mol_diss",
    "AIR_DIFFUSION" := "mol_diss_air",
    "FULL_SPECIATION" := "ion_con",
    "HENRYS_CONSTANT" := "henrys_law_con",
    "DISTRIBUTION" := "kow_no_ph",
    "LOGD" := "kow_wph",
    "BOILING_POINT" := "boiling_point"]

  /** What request_logic stores and returns once the attempts run out. */
  const ServerNotFound := "calc server not found"

  // ---------------------------------------------------------------------
  // Response check and retry outcome
  // ---------------------------------------------------------------------

  /** validate_response. A decoded body that is not a dict makes
      `response_obj.get` raise AttributeError. */
  function ValidateResponse(resp: Response): (r: Result<bool>)
    ensures r == Ok(true) <==>
      resp.status == 200 && resp.body.Some? && resp.body.value.JObj?
      && (Lookup(resp.body.value.fields, "type") == JStr("LOGD") ==>
            Lookup(resp.body.value.fields, "plotCoordinates").JList?)
    ensures r.Raised? <==> resp.status == 200 && resp.body.Some? && !resp.body.value.JObj?
    ensures r.Raised? ==> r.exc == AttributeError
  {
    if resp.status != 200 then Ok(false)
    else if resp.body.None? then Ok(false)
    else match Get(resp.body.value, "type")
      case Raised(e) => Raised(e)
      case Ok(t) =>
        if t == JStr("LOGD") && !Lookup(resp.body.value.fields, "plotCoordinates").JList? then Ok(false)
        else Ok(true)
  }

  /** A reply that ends request_logic's loop: delivered and validated.
      A reply whose validation raises is caught and retried like a rejected
      one. */
  predicate SparcAccepts(reply: Reply) {
    reply.Delivered? && ValidateResponse(reply.response) == Ok(true)
  }

  /** What request_logic returns when the server answers with `replies`:
      the decoded body of the first accepted reply within `limit` attempts,
      or the sentinel string. */
  function SparcOutcome(replies: seq<Reply>, limit: nat): (r: Json)
    ensures r == JStr(ServerNotFound) <==> FirstStop(replies, SparcAccepts, limit).None?
    ensures r != JStr(ServerNotFound) ==>
      r.JObj? && (Lookup(r.fields, "type") == JStr("LOGD") ==> Lookup(r.fields, "plotCoordinates").JList?)
  {
    var stop := FirstStop(replies, SparcAccepts, limit);
    if stop.Some? then ReplyAt(replies, stop.value).response.body.value else JStr(ServerNotFound)
  }

  // ---------------------------------------------------------------------
  // Payloads
  // ---------------------------------------------------------------------

  /** A solvent dict as get_solvent builds it. */
  datatype Solvent = Solvent(smiles: string, name: string)

  function SolventJson(solvent: Solvent): Json {
    JObj(map["solvents" := JNull, "smiles" := JStr(solvent.smiles), "mixedSolvent" := JBool(false),
             "name" := JStr(solvent.name)])
  }

  const Water := Solvent("O", "water")
  const Octanol := Solvent("OCCCCCCCC", "octanol")

  /** A calculation dict as get_calculation builds it, with the solvents
      appended to it since; its pressure, melting point and temperature are
      the calculator's own (see SparcCalc.CalculationJson). */
  datatype Calc = Calc(sparcType: CalcType, solvents: seq<Solvent>)

  /** The calculation types a multi-property query asks for. */
  datatype CalcType =
    | VaporPressure | BoilingPoint | Diffusion | Volume | Density | Polarizability
    | IndexOfRefraction | HenrysConstant | Solubility | Activity | ElectronAffinity | Distribution

  /** The type's name as SPARC spells it (POLARIZABLITY included). */
  function TypeName(t: CalcType): string {
    match t
    case VaporPressure => "VAPOR_PRESSURE"
    case BoilingPoint => "BOILING_POINT"
    case Diffusion => "DIFFUSION"
    case Volume => "VOLUME"
    case Density => "DENSITY"
    case Polarizability => "POLARIZABLITY"
    case IndexOfRefraction => "INDEX_OF_REFRACTION"
    case HenrysConstant => "HENRYS_CONSTANT"
    case Solubility => "SOLUBILITY"
    case Activity => "ACTIVITY"
    case ElectronAffinity => "ELECTRON_AFFINITY"
    case Distribution => "DISTRIBUTION"
  }

  /** The units each type is requested in. */
  function UnitsOf(t: CalcType): string {
    match t
    case VaporPressure => "Torr"
    case BoilingPoint => "degreesC"
    case Diffusion => "NO_UNITS"
    case Volume => "cmCubedPerMole"
    case Density => "gPercmCubed"
    case Polarizability => "angCubedPerMolecule"
    case IndexOfRefraction => "dummy"
    case HenrysConstant => "AtmPerMolPerM3"
    case Solubility => "mgPerL"
    case Activity => "dummy"
    case ElectronAffinity => "dummy"
    case Distribution => "NO_UNITS"
  }

  /** The calculations of a multi-property query, in order. */
  const CalculationOrder: seq<CalcType> := [
    VaporPressure, BoilingPoint, Diffusion, Volume, Density, Polarizability,
    IndexOfRefraction, HenrysConstant, Solubility, Activity, ElectronAffinity, Distribution]

  /** The solvents a calculation type is run in: water for the
      water-phase properties, water and octanol for the partition
      coefficient, none otherwise. */
  function SolventsFor(t: CalcType): seq<Solvent> {
    match t
    case HenrysConstant => [Water]
    case Solubility => [Water]
    case Activity => [Water]
    case Distribution => [Water, Octanol]
    case _ => []
  }

  /** `calc["solvents"].append(solvent)` */
  function AddSolvent(calculation: Calc, solvent: Solvent): Calc {
    calculation.(solvents := calculation.solvents + [solvent])
  }

  /** The calculations of a multi-property query, read off the tables:
      each type, in order, with the solvents it is run in. */
  function ExpectedCalculations(): seq<Calc> {
    seq(|CalculationOrder|, i requires 0 <= i < |CalculationOrder| =>
      Calc(CalculationOrder[i], SolventsFor(CalculationOrder[i])))
  }

  /** The calculations of a multi-property query, written out. */
  lemma ExpectedCalculationsListed()
    ensures ExpectedCalculations() == [
      Calc(VaporPressure, []), Calc(BoilingPoint, []), Calc(Diffusion, []), Calc(Volume, []),
      Calc(Density, []), Calc(Polarizability, []), Calc(IndexOfRefraction, []),
      Calc(HenrysConstant, [Water]), Calc(Solubility, [Water]), Calc(Activity, [Water]),
      Calc(ElectronAffinity, []), Calc(Distribution, [Water, Octanol])]
  {
  }

  /** Python's `str()` of the smiles attribute, as makeCallForPka sends it. */
  function SmilesText(smiles: Option<string>): string {
    if smiles.Some? then smiles.value else "None"
  }

  /** The smiles attribute as a JSON value. */
  function SmilesJson(smiles: Option<string>): Json {
    if smiles.Some? then JStr(smiles.value) else JNull
  }

  /** The SPARC endpoint a request is dispatched to. */
  datatype Endpoint = FullSpeciation | LogD | MultiProperty

  function EndpointFor(prop: Json): Endpoint {
    if prop == JStr("ion_con") then FullSpeciation
    else if prop == JStr("kow_wph") then LogD
    else MultiProperty
  }

  // ---------------------------------------------------------------------
  // Extractors
  // ---------------------------------------------------------------------

  /** The result of looking up a SPARC type in `sparc_props`: a dict or a
      list is unhashable. */
  function SparcPropName(sparcType: Json): Result<Option<string>> {
    match sparcType
    case JStr(s) => Ok(if s in SparcProps then Some(SparcProps[s]) else None)
    case JList(_) => Raised(TypeError)
    case JObj(_) => Raised(TypeError)
    case _ => Ok(None)
  }

  /** A mapped result: its CTS property name and its data. */
  datatype Mapped = Mapped(name: string, data: Json)

  /** A result whose type maps to a CTS property. */
  predicate IsMappedResult(result: Json) {
    result.JObj? && "type" in result.fields && "result" in result.fields
    && result.fields["type"].JStr? && result.fields["type"].s in SparcProps
  }

  /** The first loop of parseMultiPropResponse: every result is read for
      `type` and `result`, and kept when its type maps to a CTS name. */
  function MappedResults(results: seq<Json>): (r: Result<seq<Mapped>>)
    ensures r.Ok? ==> |r.value| <= |results|
    ensures r.Ok? ==> forall i :: 0 <= i < |results| && IsMappedResult(results[i]) ==>
      Mapped(SparcProps[results[i].fields["type"].s], results[i].fields["result"]) in r.value
    ensures r.Ok? ==> forall m :: m in r.value ==>
      exists i :: 0 <= i < |results| && IsMappedResult(results[i])
        && m == Mapped(SparcProps[results[i].fields["type"].s], results[i].fields["result"])
    decreases |results|
  {
    if results == [] then Ok([])
    else match Index(results[0], "type")
      case Raised(e) => Raised(e)
      case Ok(t) =>
        match SparcPropName(t)
        case Raised(e) => Raised(e)
        case Ok(name) =>
          match Index(results[0], "result")
          case Raised(e) => Raised(e)
          case Ok(data) =>
            match MappedResults(results[1..])
            case Raised(e) => Raised(e)
            case Ok(rest) =>
              assert forall i :: 1 <= i < |results| ==> results[i] == results[1..][i - 1];
              Ok((if name.Some? then [Mapped(name.value, data)] else []) + rest)
  }

  /** `{'calc': 'sparc', 'prop': prop, 'data': data}` */
  function SparcEntry(prop: Json, data: Json): Json {
    JObj(map["calc" := JStr("sparc"), "prop" := prop, "data" := data])
  }

  /** The list `sparc_response` of parseMultiPropResponse: one sparc
      entry per mapped result. */
  function Entries(ms: seq<Mapped>): seq<Json> {
    seq(|ms|, i requires 0 <= i < |ms| => SparcEntry(JStr(ms[i].name), ms[i].data))
  }

  /** The list `sparc_response_props`: the name of each mapped result. */
  function Names(ms: seq<Mapped>): seq<string> {
    seq(|ms|, i requires 0 <= i < |ms| => ms[i].name)
  }

  /** Appending a mapped result appends its entry and its name. */
  lemma EntriesNamesAppend(done: seq<Mapped>, m: Mapped)
    ensures Entries(done + [m]) == Entries(done) + [SparcEntry(JStr(m.name), m.data)]
    ensures Names(done + [m]) == Names(done) + [m.name]
  {
    var ms := done + [m];
    assert forall i :: 0 <= i < |done| ==> ms[i] == done[i];
    assert Entries(ms)[|done|] == SparcEntry(JStr(m.name), m.data);
  }

  /** The two lists run in step: the i-th name is the "prop" of the i-th
      entry, and every entry is tagged as coming from sparc with its
      result's data. */
  lemma EntriesCarryNames(ms: seq<Mapped>)
    ensures |Entries(ms)| == |Names(ms)| == |ms|
    ensures forall i :: 0 <= i < |ms| ==>
      Entries(ms)[i].JObj? && Entries(ms)[i].fields.Keys == {"calc", "prop", "data"}
      && Entries(ms)[i].fields["calc"] == JStr("sparc")
      && Entries(ms)[i].fields["prop"] == JStr(Names(ms)[i])
      && Entries(ms)[i].fields["data"] == ms[i].data
  { }

  /** A requested prop that gets a "prop not found" entry. */
  predicate IsMissing(prop: Json, found: seq<string>) {
    !(prop.JStr? && prop.s in found) && prop != JStr("ion_con") && prop != JStr("kow_wph")
  }

  /** The requested props, in order, that the mapped results lack. */
  function Missing(props: seq<Json>, found: seq<string>): (r: seq<Json>)
    ensures forall p :: p in r <==> p in props && IsMissing(p, found)
    decreases |props|
  {
    if props == [] then []
    else
      var init := props[..|props| - 1];
      var last := props[|props| - 1];
      assert props == init + [last];
      Missing(init, found) + if IsMissing(last, found) then [last] else []
  }

  const NoResultsMessage := "(sparc) no results given to parse or not a list.."
  const PropNotFoundData := "prop not found"

  /** What parseMultiPropResponse returns for `results` and the request. */
  function MultiProp(results: Json, request: map<string, Json>): Result<seq<Json>> {
    if !Truthy(results) || !results.JList? then Raised(Error(NoResultsMessage))
    else match MappedResults(results.items)
      case Raised(e) => Raised(e)
      case Ok(ms) =>
        match Index(JObj(request), "props")
        case Raised(e) => Raised(e)
        case Ok(props) =>
          match Items(props)
          case Raised(e) => Raised(e)
          case Ok(ps) =>
            Ok(Entries(ms) + NotFoundEntries(ps, Names(ms)))
  }

  /** `MappedResults` after `done` has already been collected. */
  function After(done: seq<Mapped>, r: Result<seq<Mapped>>): Result<seq<Mapped>> {
    match r
    case Raised(e) => Raised(e)
    case Ok(rest) => Ok(done + rest)
  }

  lemma AfterNothing(r: Result<seq<Mapped>>)
    ensures After([], r) == r
  {
    match r {
      case Raised(_) =>
      case Ok(rest) => assert [] + rest == rest;
    }
  }

  lemma AfterAfter(done: seq<Mapped>, head: seq<Mapped>, r: Result<seq<Mapped>>)
    ensures After(done, After(head, r)) == After(done + head, r)
  {
    match r {
      case Raised(_) =>
      case Ok(rest) => assert done + (head + rest) == (done + head) + rest;
    }
  }

  /** The mapped results keep the input order: mapping `a + b` maps `a`,
      then continues with `b` after it. */
  lemma {:induction false} MappedResultsConcat(a: seq<Json>, b: seq<Json>)
    requires MappedResults(a).Ok?
    ensures MappedResults(a + b) == After(MappedResults(a).value, MappedResults(b))
    decreases |a|
  {
    if a == [] {
      assert a + b == b;
      AfterNothing(MappedResults(b));
    } else {
      var ab := a + b;
      assert ab[0] == a[0] && ab[1..] == a[1..] + b;
      var name := SparcPropName(Index(a[0], "type").value).value;
      var data := Index(a[0], "result").value;
      var head := if name.Some? then [Mapped(name.value, data)] else [];
      var rest := MappedResults(a[1..]).value;
      assert MappedResults(a).value == head + rest;
      MappedResultsConcat(a[1..], b);
      assert MappedResults(ab) == After(head, MappedResults(a[1..] + b));
      AfterAfter(head, rest, MappedResults(b));
    }
  }

  /** A single result is mapped to one entry exactly when its type names a
      CTS property, and to none when its type is unknown. */
  lemma MappedResultsSingle(result: Json)
    requires MappedResults([result]).Ok?
    ensures IsMappedResult(result) ==>
      MappedResults([result]) == Ok([Mapped(SparcProps[result.fields["type"].s], result.fields["result"])])
    ensures !IsMappedResult(result) ==> MappedResults([result]) == Ok([])
  {
    assert [result][1..] == [];
    assert MappedResults([]) == Ok([]);
    if IsMappedResult(result) {
      var t := result.fields["type"];
      assert Index(result, "type") == Ok(t);
      assert SparcPropName(t) == Ok(Some(SparcProps[t.s]));
      assert Index(result, "result") == Ok(result.fields["result"]);
      var m := Mapped(SparcProps[t.s], result.fields["result"]);
      assert [result][0] == result;
      assert [m] + [] == [m];
    }
  }

  /** The first loop of parseMultiPropResponse: the entries and names of
      the mapped results, collected in order, or the exception a result
      raised. */
  method CollectMapped(xs: seq<Json>) returns (r: Result<seq<Mapped>>, sparcResponse: seq<Json>, sparcResponseProps: seq<string>)
    ensures r == MappedResults(xs)
    ensures r.Ok? ==> sparcResponse == Entries(r.value) && sparcResponseProps == Names(r.value)
  {
    sparcResponse := [];
    sparcResponseProps := [];
    var done: seq<Mapped> := [];
    var k := 0;
    assert xs[k..] == xs;
    AfterNothing(MappedResults(xs));
    while k < |xs|
      invariant 0 <= k <= |xs|
      invariant MappedResults(xs) == After(done, MappedResults(xs[k..]))
      invariant sparcResponse == Entries(done) && sparcResponseProps == Names(done)
    {
      assert xs[k..][1..] == xs[k + 1..];
      var sparcType := Index(xs[k], "type");
      if sparcType.Raised? {
        assert MappedResults(xs[k..]) == Raised(sparcType.exc);
        return Raised(sparcType.exc), sparcResponse, sparcResponseProps;
      }
      var ctsName := SparcPropName(sparcType.value);
      if ctsName.Raised? {
        assert MappedResults(xs[k..]) == Raised(ctsName.exc);
        return Raised(ctsName.exc), sparcResponse, sparcResponseProps;
      }
      var data := Index(xs[k], "result");
      if data.Raised? {
        assert MappedResults(xs[k..]) == Raised(data.exc);
        return Raised(data.exc), sparcResponse, sparcResponseProps;
      }
      ghost var head := if ctsName.value.Some? then [Mapped(ctsName.value.value, data.value)] else [];
      assert MappedResults(xs[k..]) == After(head, MappedResults(xs[k + 1..]));
      AfterAfter(done, head, MappedResults(xs[k + 1..]));
      if ctsName.value.Some? {
        var entry := Mapped(ctsName.value.value, data.value);
        assert head == [entry];
        sparcResponse := sparcResponse + [SparcEntry(JStr(entry.name), entry.data)];
        sparcResponseProps := sparcResponseProps + [entry.name];
        EntriesNamesAppend(done, entry);
        done := done + [entry];
      } else {
        assert done + head == done;
      }
      k := k + 1;
    }
    assert xs[k..] == [];
    assert done + [] == done;
    r := Ok(done);
  }

  /** The "prop not found" entries of the requested props missing from
      `found`, in request order. */
  function NotFoundEntries(props: seq<Json>, found: seq<string>): seq<Json> {
    var missing := Missing(props, found);
    seq(|missing|, i requires 0 <= i < |missing| => SparcEntry(missing[i], JStr(PropNotFoundData)))
  }

  /** The second loop of parseMultiPropResponse: an entry appended for
      each requested prop the mapped results lack. */
  method AppendMissing(prefix: seq<Json>, props: seq<Json>, found: seq<string>) returns (sparcResponse: seq<Json>)
    ensures sparcResponse == prefix + NotFoundEntries(props, found)
  {
    sparcResponse := prefix;
    var j := 0;
    while j < |props|
      invariant 0 <= j <= |props|
      invariant sparcResponse == prefix + NotFoundEntries(props[..j], found)
    {
      var prop := props[j];
      assert props[..j + 1][..j] == props[..j];
      if IsMissing(prop, found) {
        sparcResponse := sparcResponse + [SparcEntry(prop, JStr(PropNotFoundData))];
      }
      j := j + 1;
    }
    assert props[..j] == props;
  }

  /** Every entry parseMultiPropResponse returns is a sparc entry; the
      mapped entries come first, and every requested prop other than ion_con
      and kow_wph is present in the output, found or "prop not found". */
  lemma MultiPropCovers(results: Json, request: map<string, Json>, ps: seq<Json>)
    requires MultiProp(results, request).Ok?
    requires "props" in request && Items(request["props"]) == Ok(ps)
    ensures var out := MultiProp(results, request).value;
      (forall e :: e in out ==> e.JObj? && e.fields["calc"] == JStr("sparc"))
      && (forall p :: p in ps && p != JStr("ion_con") && p != JStr("kow_wph") ==>
            exists e :: e in out && e.fields["prop"] == p)
    ensures var out := MultiProp(results, request).value;
      var ms := MappedResults(results.items).value;
      |ms| <= |out| && out[..|ms|] == Entries(ms)
      && forall i :: |ms| <= i < |out| ==>
           out[i].JObj? && "data" in out[i].fields && out[i].fields["data"] == JStr(PropNotFoundData)
  {
    var out := MultiProp(results, request).value;
    var ms := MappedResults(results.items).value;
    var missing := Missing(ps, Names(ms));
    var tail := seq(|missing|, i requires 0 <= i < |missing| => SparcEntry(missing[i], JStr(PropNotFoundData)));
    assert out == Entries(ms) + tail;
    assert out[..|ms|] == Entries(ms);
    forall i | |ms| <= i < |out|
      ensures out[i].JObj? && "data" in out[i].fields && out[i].fields["data"] == JStr(PropNotFoundData)
    {
      assert out[i] == tail[i - |ms|];
    }
    forall p | p in ps && p != JStr("ion_con") && p != JStr("kow_wph")
      ensures exists e :: e in out && e.fields["prop"] == p
    {
      if IsMissing(p, Names(ms)) {
        var i :| 0 <= i < |missing| && missing[i] == p;
        assert tail[i] in out;
      } else {
        var k :| 0 <= k < |ms| && Names(ms)[k] == p.s;
        assert Entries(ms)[k] in out;
      }
    }
  }

  const PkaParseError := "error parsing sparc request"

  /** The macroPka entry of a pKa item that is not the -1000 placeholder. */
  predicate Counts(item: Json) {
    item.JObj? && !NumEq(Lookup(item.fields, "macroPka"), -1000.0)
  }

  predicate IsAcid(item: Json) {
    Counts(item) && (Lookup(item.fields, "macroPkaType") == JStr("Acid") || Lookup(item.fields, "macroPkaType") == JStr("Both"))
  }

  predicate IsBase(item: Json) {
    Counts(item) && Lookup(item.fields, "macroPkaType") == JStr("Base")
  }

  /** The macroPka values of the acid (and amphoteric) items, in order. */
  function AcidValues(items: seq<Json>): (vs: seq<Json>)
    ensures |vs| <= |items|
    ensures forall i :: 0 <= i < |items| && IsAcid(items[i]) ==> Lookup(items[i].fields, "macroPka") in vs
    ensures forall v :: v in vs ==> exists i :: 0 <= i < |items| && IsAcid(items[i]) && v == Lookup(items[i].fields, "macroPka")
    decreases |items|
  {
    if items == [] then []
    else
      var init := items[..|items| - 1];
      var last := items[|items| - 1];
      assert forall i :: 0 <= i < |init| ==> init[i] == items[i];
      AcidValues(init) + if IsAcid(last) then [Lookup(last.fields, "macroPka")] else []
  }

  /** The macroPka values of the base items, in order. */
  function BaseValues(items: seq<Json>): (vs: seq<Json>)
    ensures |vs| <= |items|
    ensures forall i :: 0 <= i < |items| && IsBase(items[i]) ==> Lookup(items[i].fields, "macroPka") in vs
    ensures forall v :: v in vs ==> exists i :: 0 <= i < |items| && IsBase(items[i]) && v == Lookup(items[i].fields, "macroPka")
    decreases |items|
  {
    if items == [] then []
    else
      var init := items[..|items| - 1];
      var last := items[|items| - 1];
      assert forall i :: 0 <= i < |init| ==> init[i] == items[i];
      BaseValues(init) + if IsBase(last) then [Lookup(last.fields, "macroPka")] else []
  }

  /** The acid values keep the order of the items: those of `a + b` are
      those of `a` followed by those of `b`. */
  lemma {:induction false} AcidValuesAppend(a: seq<Json>, b: seq<Json>)
    ensures AcidValues(a + b) == AcidValues(a) + AcidValues(b)
    decreases |b|
  {
    if b == [] {
      assert a + b == a;
    } else {
      var ab := a + b;
      var init := b[..|b| - 1];
      var last := b[|b| - 1];
      assert ab[..|ab| - 1] == a + init && ab[|ab| - 1] == last;
      var acid := if IsAcid(last) then [Lookup(last.fields, "macroPka")] else [];
      assert AcidValues(ab) == AcidValues(a + init) + acid;
      assert AcidValues(b) == AcidValues(init) + acid;
      AcidValuesAppend(a, init);
    }
  }

  /** The base values keep the order of the items, in the same way. */
  lemma {:induction false} BaseValuesAppend(a: seq<Json>, b: seq<Json>)
    ensures BaseValues(a + b) == BaseValues(a) + BaseValues(b)
    decreases |b|
  {
    if b == [] {
      assert a + b == a;
    } else {
      var ab := a + b;
      var init := b[..|b| - 1];
      var last := b[|b| - 1];
      assert ab[..|ab| - 1] == a + init && ab[|ab| - 1] == last;
      var base := if IsBase(last) then [Lookup(last.fields, "macroPka")] else [];
      assert BaseValues(ab) == BaseValues(a + init) + base;
      assert BaseValues(b) == BaseValues(init) + base;
      BaseValuesAppend(a, init);
    }
  }

  /** What getPkaResults returns: any failure becomes one generic
      exception; no classified value at all gives None. */
  function PkaResults(results: Json): Result<Json> {
    match Index(results, "macroPkaResults")
    case Raised(_) => Raised(Error(PkaParseError))
    case Ok(list) =>
      match Items(list)
      case Raised(_) => Raised(Error(PkaParseError))
      case Ok(items) =>
        if exists i :: 0 <= i < |items| && !items[i].JObj? then Raised(Error(PkaParseError))
        else if AcidValues(items) == [] && BaseValues(items) == [] then Ok(JNull)
        else Ok(JObj(map["pKa" := JList(AcidValues(items)), "pKb" := JList(BaseValues(items))]))
  }

  /** getPkaResults returns None exactly when the items hold no acid and no
      base value other than the placeholder; an item is never both. */
  lemma PkaNoneIffNothingClassified(items: seq<Json>)
    requires forall i :: 0 <= i < |items| ==> items[i].JObj?
    ensures PkaResults(JObj(map["macroPkaResults" := JList(items)])) == Ok(JNull) <==>
      forall i :: 0 <= i < |items| ==> !IsAcid(items[i]) && !IsBase(items[i])
    ensures forall i :: 0 <= i < |items| ==> !(IsAcid(items[i]) && IsBase(items[i]))
  {
    var acids := AcidValues(items);
    var bases := BaseValues(items);
    assert |acids| == 0 || acids[0] in acids;
    assert |bases| == 0 || bases[0] in bases;
    assert Items(JList(items)) == Ok(items);
  }

  /** getLogDForPH's loop: the y of the first pair whose x equals `ph`
      exactly (`float(ph)` is evaluated only once a pair is looked at), or
      None when none does. */
  function ScanLogD(pairs: seq<Json>, ph: Json, parse: FloatParser): Result<Json>
    decreases |pairs|
  {
    if pairs == [] then Ok(JNull)
    else match At(pairs[0], 0)
      case Raised(e) => Raised(e)
      case Ok(x) =>
        match PyFloat(ph, parse)
        case Raised(e) => Raised(e)
        case Ok(p) => if NumEq(x, p) then At(pairs[0], 1) else ScanLogD(pairs[1..], ph, parse)
  }

  /** getLogDForPH */
  function GetLogDForPH(results: Json, ph: Json, parse: FloatParser): Result<Json> {
    match Index(results, "plotCoordinates")
    case Raised(e) => Raised(e)
    case Ok(plot) =>
      match Items(plot)
      case Raised(e) => Raised(e)
      case Ok(pairs) => ScanLogD(pairs, ph, parse)
  }

  /** A well-formed coordinate pair whose x equals `ph`. */
  predicate Hits(xy: Json, ph: real) {
    xy.JList? && |xy.items| >= 2 && NumEq(xy.items[0], ph)
  }

  /** A coordinate list none of whose pairs is at `ph` gives None. */
  lemma {:induction false} LogDMissGivesNone(pairs: seq<Json>, ph: real, parse: FloatParser)
    requires forall i :: 0 <= i < |pairs| ==> pairs[i].JList? && |pairs[i].items| >= 2 && !Hits(pairs[i], ph)
    ensures ScanLogD(pairs, JNum(ph), parse) == Ok(JNull)
    decreases |pairs|
  {
    if pairs != [] {
      assert forall i :: 1 <= i < |pairs| ==> pairs[1..][i - 1] == pairs[i];
      LogDMissGivesNone(pairs[1..], ph, parse);
    }
  }

  /** The first pair at `ph` gives its y, whatever follows it: an exact
      match, without interpolation. */
  lemma {:induction false} LogDFirstHit(pairs: seq<Json>, ph: real, parse: FloatParser, i: nat)
    requires i < |pairs| && Hits(pairs[i], ph)
    requires forall j :: 0 <= j < i ==> pairs[j].JList? && |pairs[j].items| >= 2 && !Hits(pairs[j], ph)
    ensures ScanLogD(pairs, JNum(ph), parse) == Ok(pairs[i].items[1])
    decreases i
  {
    if i > 0 {
      assert forall j :: 1 <= j < |pairs| ==> pairs[1..][j - 1] == pairs[j];
      LogDFirstHit(pairs[1..], ph, parse, i - 1);
    }
  }

  /** pH 7.05 between the points 7.0 and 7.1 finds nothing; 7.1 finds its
      own point. */
  lemma LogDNoInterpolation(parse: FloatParser)
    ensures var plot := JObj(map["plotCoordinates" := JList([JList([JNum(7.0), JNum(1.2)]), JList([JNum(7.1), JNum(1.3)])])]);
      GetLogDForPH(plot, JNum(7.05), parse) == Ok(JNull)
      && GetLogDForPH(plot, JNum(7.1), parse) == Ok(JNum(1.3))
  {
  }

  // ---------------------------------------------------------------------
  // Request defaults and response copy
  // ---------------------------------------------------------------------

  /** The request after the defaults are filled in. */
  function FillDefaults(request: map<string, Json>): (filled: map<string, Json>)
    ensures filled.Keys == request.Keys + Calculator.PchemRequest.Keys
    ensures forall k :: k in request ==> filled[k] == request[k]
    ensures forall k :: k in Calculator.PchemRequest && k !in request ==> filled[k] == Calculator.PchemRequest[k]
  {
    map k | k in request.Keys + Calculator.PchemRequest.Keys ::
      if k in request then request[k] else Calculator.PchemRequest[k]
  }

  /** Filling the defaults twice changes nothing more. */
  lemma FillDefaultsIdempotent(request: map<string, Json>)
    ensures FillDefaults(FillDefaults(request)) == FillDefaults(request)
  {
  }

  /** The melting-point lookup hands one dict to every source, changing
      only a key such as `calc` in between, and the handler fills the
      defaults into that dict in place. What the next call then sees, once
      its defaults are filled, is what a fresh request would give. */
  lemma FilledRequestRetargets(request: map<string, Json>, key: string, value: Json)
    ensures FillDefaults(FillDefaults(request)[key := value]) == FillDefaults(request[key := value])
  {
  }

  /** The default-filling loop of data_request_handler, in place. */
  method FillRequestDefaults(request: Dict)
    modifies request
    ensures request.items == FillDefaults(old(request.items))
  {
    var keys := Calculator.PchemRequest.Keys;
    ghost var original := request.items;
    while keys != {}
      invariant keys <= Calculator.PchemRequest.Keys
      invariant request.items.Keys == original.Keys + (Calculator.PchemRequest.Keys - keys)
      invariant forall k :: k in original ==> request.items[k] == original[k]
      invariant forall k :: k in request.items && k !in original ==> request.items[k] == Calculator.PchemRequest[k]
      decreases keys
    {
      var key :| key in keys;
      if key !in request.items {
        request.items := request.items[key := Calculator.PchemRequest[key]];
      }
      keys := keys - {key};
    }
  }

  /** The response dict's copy of the request: every key but 'nodes'. */
  method CopyResponse(request: map<string, Json>) returns (copy: map<string, Json>)
    ensures copy.Keys == request.Keys - {"nodes"}
    ensures forall k :: k in copy ==> copy[k] == request[k]
  {
    copy := map[];
    var keys := request.Keys;
    while keys != {}
      invariant keys <= request.Keys
      invariant copy.Keys == (request.Keys - keys) - {"nodes"}
      invariant forall k :: k in copy ==> copy[k] == request[k]
      decreases keys
    {
      var key :| key in keys;
      if key != "nodes" {
        copy := copy[key := request[key]];
      }
      keys := keys - {key};
    }
  }

  /** The response dict before the endpoint's data is added. */
  function ResponseBase(request: map<string, Json>): map<string, Json> {
    (map k | k in request && k != "nodes" :: request[k])["request_post" := JObj(request)]["method" := JNull]
  }

  /** The dict returned when anything raises during dispatch. */
  function TimedOut(request: map<string, Json>): Json {
    JObj(ResponseBase(request)["data" := JStr("request timed out")]["prop" := Lookup(request, "prop")])
  }

  /** The sentinel string does not contain "calculationResults", so the
      handler's membership test on it is false. */
  lemma SentinelLacksCalculationResults()
    ensures !IsSubstring("calculationResults", ServerNotFound)
  {
    var needle := "calculationResults";
    var hay := ServerNotFound;
    assert needle[0] == 'c' && needle[1] == 'a' && needle[4] == 'u';
    assert hay[1] == 'a' && hay[2] == 'l' && hay[4] == ' ';
    forall i | 0 <= i <= |hay|
      ensures !(needle <= hay[i..])
    {
      if i == 0 {
        MismatchIsNoPrefix(needle, hay, 0, 4);
      } else if i == 1 || i == 2 {
        MismatchIsNoPrefix(needle, hay, i, 0);
      } else if i == 3 {
        MismatchIsNoPrefix(needle, hay, 3, 1);
      } else {
        assert |hay[i..]| < |needle|;
      }
    }
  }

  /** A mismatch at offset k of position i rules out an occurrence there. */
  lemma MismatchIsNoPrefix(needle: string, hay: string, i: nat, k: nat)
    requires i + k < |hay| && k < |needle| && hay[i + k] != needle[k]
    ensures !(needle <= hay[i..])
  {
    assert hay[i..][k] == hay[i + k];
  }

  // ---------------------------------------------------------------------
  // The calculator
  // ---------------------------------------------------------------------

  class SparcCalc {
    const smiles: Option<string>
    const meltingPoint: real
    const pressure: real
    const temperature: real
    const maxRetries: nat
    var results: Json

    /** A calculator with the source's defaults is `new SparcCalc(None,
        0.0, 760.0, 25.0)`. */
    constructor (smiles: Option<string>, meltingPoint: real, pressure: real, temperature: real)
      ensures this.smiles == smiles && this.meltingPoint == meltingPoint
      ensures this.pressure == pressure && this.temperature == temperature
      ensures maxRetries == 3 && results == JStr("")
    {
      this.smiles := smiles;
      this.meltingPoint := meltingPoint;
      this.pressure := pressure;
      this.temperature := temperature;
      maxRetries := 3;
      results := JStr("");
    }

    /** get_calculation: a calculation of type `t`, no solvent yet. */
    function Calculation(t: CalcType): Calc {
      Calc(t, [])
    }

    /** A calculation as the JSON dict posted, with the calculator's
        conditions. */
    function CalculationJson(c: Calc): Json {
      JObj(map["solvents" := JList(seq(|c.solvents|, i requires 0 <= i < |c.solvents| => SolventJson(c.solvents[i]))),
               "units" := JStr(UnitsOf(c.sparcType)),
               "pressure" := JNum(pressure), "meltingPoint" := JNum(meltingPoint),
               "temperature" := JNum(temperature), "type" := JStr(TypeName(c.sparcType))])
    }

    /** getCalculations: twelve calculations appended one by one, water
        added to Henry's constant, solubility, activity and distribution,
        octanol to distribution. */
    method GetCalculations() returns (calculations: seq<Calc>)
      ensures calculations == ExpectedCalculations()
    {
      calculations := [];
      calculations := calculations + [Calculation(VaporPressure)];
      calculations := calculations + [Calculation(BoilingPoint)];
      calculations := calculations + [Calculation(Diffusion)];
      calculations := calculations + [Calculation(Volume)];
      calculations := calculations + [Calculation(Density)];
      calculations := calculations + [Calculation(Polarizability)];
      calculations := calculations + [Calculation(IndexOfRefraction)];

      var calcHC := Calculation(HenrysConstant);
      calcHC := AddSolvent(calcHC, Water);
      assert calcHC.solvents == [Water];
      calculations := calculations + [calcHC];

      var calcSol := Calculation(Solubility);
      calcSol := AddSolvent(calcSol, Water);
      assert calcSol.solvents == [Water];
      calculations := calculations + [calcSol];

      var calcAct := Calculation(Activity);
      calcAct := AddSolvent(calcAct, Water);
      assert calcAct.solvents == [Water];
      calculations := calculations + [calcAct];

      calculations := calculations + [Calculation(ElectronAffinity)];
      var calcDist := Calculation(Distribution);
      calcDist := AddSolvent(calcDist, Water);
      calcDist := AddSolvent(calcDist, Octanol);
      assert calcDist.solvents == [Water, Octanol];
      calculations := calculations + [calcDist];
      ExpectedCalculationsListed();
      assert calculations == [
        Calc(VaporPressure, []), Calc(BoilingPoint, []), Calc(Diffusion, []), Calc(Volume, []),
        Calc(Density, []), Calc(Polarizability, []), Calc(IndexOfRefraction, []),
        Calc(HenrysConstant, [Water]), Calc(Solubility, [Water]), Calc(Activity, [Water]),
        Calc(ElectronAffinity, []), Calc(Distribution, [Water, Octanol])];
    }

    /** The multi-property query over the given calculations. */
    function QueryWith(calculations: seq<Calc>): Json {
      JObj(map["pressure" := JNum(pressure), "meltingPoint" := JNum(meltingPoint),
               "temperature" := JNum(temperature),
               "calculations" := JList(seq(|calculations|, i requires 0 <= i < |calculations| => CalculationJson(calculations[i]))),
               "smiles" := SmilesJson(smiles), "userId" := JNull, "apiKey" := JNull,
               "type" := JStr("MULTIPLE_PROPERTY"), "doSolventInit" := JBool(false)])
    }

    /** The query get_sparc_query posts. */
    function SparcQuery(): Json {
      QueryWith(ExpectedCalculations())
    }

    /** get_sparc_query: the calculator's conditions and smiles, with the
        calculations getCalculations builds. */
    method GetSparcQuery() returns (query: Json)
      ensures query == SparcQuery()
    {
      var calculations := GetCalculations();
      query := QueryWith(calculations);
    }

    /** The post of makeCallForPka. */
    function PkaPost(): Json {
      JObj(map["type" := JStr("FULL_SPECIATION"), "temperature" := JNum(25.0), "minPh" := JNum(0.0),
               "phIncrement" := JNum(0.5), "smiles" := JStr(SmilesText(smiles)),
               "username" := JStr("browser1"), "elimAcid" := JList([]), "elimBase" := JList([]),
               "considerMethylAsAcid" := JBool(true)])
    }

    /** The post of makeCallForLogD. */
    function LogDPost(): Json {
      JObj(map["type" := JStr("LOGD"), "solvent" := SolventJson(Octanol), "temperature" := JNum(25.0),
               "pH_minimum" := JNum(0.0), "pH_increment" := JNum(0.1),
               "ionic_strength" := JNum(0.0), "smiles" := SmilesJson(smiles)])
    }

    function PayloadFor(e: Endpoint): Json {
      match e
      case FullSpeciation => PkaPost()
      case LogD => LogDPost()
      case MultiProperty => SparcQuery()
    }

    /** request_logic: resends the same post until a reply is accepted or
        maxRetries attempts have been made; the outcome is also stored in
        `results`. */
    method RequestLogic(payload: Json, backend: Backend) returns (r: Json)
      modifies this, backend
      ensures r == SparcOutcome(old(backend.pending), maxRetries) && results == r
      ensures var n := AttemptsMade(old(backend.pending), SparcAccepts, maxRetries);
        ResentOnly(backend.sent, old(backend.sent), payload, n)
        && backend.pending == Drop(old(backend.pending), n)
    {
      ghost var replies := backend.pending;
      ghost var sent0 := backend.sent;
      var valid := false;
      var retries := 0;
      while !valid && retries < maxRetries
        invariant 0 <= retries <= maxRetries && !valid
        invariant forall j :: 0 <= j < retries ==> !SparcAccepts(ReplyAt(replies, j))
        invariant backend.pending == Drop(replies, retries)
        invariant ResentOnly(backend.sent, sent0, payload, retries)
        decreases maxRetries - retries
      {
        DropStep(replies, retries);
        ResentOneMore(backend.sent, sent0, payload, retries);
        var reply := backend.Post(payload);
        if reply.Delivered? {
          var check := ValidateResponse(reply.response);
          if check == Ok(true) {
            valid := true;
            FirstStopUnique(replies, SparcAccepts, maxRetries, retries);
            results := reply.response.body.value;
            return results;
          }
        }
        retries := retries + 1;
      }
      results := JStr(ServerNotFound);
      return results;
    }

    /** The ion_con branch of data_request_handler. */
    function PkaOutcome(request: map<string, Json>, replies: seq<Reply>): Json {
      match PkaResults(SparcOutcome(replies, maxRetries))
      case Ok(data) => JObj(ResponseBase(request)["data" := data]["prop" := JStr("ion_con")])
      case Raised(_) => TimedOut(request)
    }

    /** The kow_wph branch of data_request_handler. */
    function LogDOutcome(request: map<string, Json>, replies: seq<Reply>, parse: FloatParser): Json {
      match Index(JObj(request), "ph")
      case Raised(_) => TimedOut(request)
      case Ok(ph) =>
        match GetLogDForPH(SparcOutcome(replies, maxRetries), ph, parse)
        case Ok(data) => JObj(ResponseBase(request)["data" := data]["prop" := JStr("kow_wph")])
        case Raised(_) => TimedOut(request)
    }

    /** The multi-property branch of data_request_handler: None when the
        answer holds no calculationResults. */
    function MultiOutcome(request: map<string, Json>, replies: seq<Reply>): Json {
      var answer := SparcOutcome(replies, maxRetries);
      match Contains(answer, "calculationResults")
      case Raised(_) => TimedOut(request)
      case Ok(present) =>
        if !present then JNull
        else match Index(answer, "calculationResults")
          case Raised(_) => TimedOut(request)
          case Ok(calcResults) =>
            match MultiProp(calcResults, request)
            case Raised(_) => TimedOut(request)
            case Ok(entries) => JList(entries)
    }

    /** What data_request_handler returns for a request whose defaults are
        filled, when the server answers with `replies`. */
    function HandlerOutcome(request: map<string, Json>, replies: seq<Reply>, parse: FloatParser): Json {
      match EndpointFor(Lookup(request, "prop"))
      case FullSpeciation => PkaOutcome(request, replies)
      case LogD => LogDOutcome(request, replies, parse)
      case MultiProperty => MultiOutcome(request, replies)
    }

    /** getPkaAndPkbFromResults: appends the item's macroPka to pKa (Acid,
        Both) or pKb (Base) unless it is the -1000 placeholder; `.get` on a
        non-dict raises. */
    method GetPkaAndPkbFromResults(pka: Json, lists: PkaLists) returns (r: Result<PkaLists>)
      modifies lists
      ensures !pka.JObj? ==> r == Raised(AttributeError) && lists.pKa == old(lists.pKa) && lists.pKb == old(lists.pKb)
      ensures pka.JObj? ==>
        r == Ok(lists)
        && lists.pKa == old(lists.pKa) + (if IsAcid(pka) then [Lookup(pka.fields, "macroPka")] else [])
        && lists.pKb == old(lists.pKb) + (if IsBase(pka) then [Lookup(pka.fields, "macroPka")] else [])
    {
      var pkaType := Get(pka, "macroPkaType");
      if pkaType.Raised? {
        return Raised(pkaType.exc);
      }
      var pkaData := Lookup(pka.fields, "macroPka");
      if !NumEq(pkaData, -1000.0) {
        if pkaType.value == JStr("Acid") || pkaType.value == JStr("Both") {
          lists.pKa := lists.pKa + [pkaData];
        } else if pkaType.value == JStr("Base") {
          lists.pKb := lists.pKb + [pkaData];
        }
      }
      return Ok(lists);
    }

    /** getPkaResults: classifies every item in order into a fresh pair of
        lists; any failure is reported as one generic exception. */
    method GetPkaResults(results: Json) returns (r: Result<Json>)
      ensures r == PkaResults(results)
    {
      var list := Index(results, "macroPkaResults");
      if list.Raised? {
        return Raised(Error(PkaParseError));
      }
      var items := Items(list.value);
      if items.Raised? {
        return Raised(Error(PkaParseError));
      }
      var xs := items.value;
      var lists := new PkaLists();
      var k := 0;
      while k < |xs|
        invariant 0 <= k <= |xs|
        invariant forall i :: 0 <= i < k ==> xs[i].JObj?
        invariant lists.pKa == AcidValues(xs[..k]) && lists.pKb == BaseValues(xs[..k])
        modifies lists
      {
        var step := GetPkaAndPkbFromResults(xs[k], lists);
        if step.Raised? {
          return Raised(Error(PkaParseError));
        }
        assert xs[..k + 1][..k] == xs[..k];
        k := k + 1;
      }
      assert xs[..k] == xs;
      if |lists.pKa| + |lists.pKb| == 0 {
        return Ok(JNull);
      }
      return Ok(JObj(map["pKa" := JList(lists.pKa), "pKb" := JList(lists.pKb)]));
    }

    /** parseMultiPropResponse: the mapped results in input order, then a
        "prop not found" entry for each requested prop they lack. */
    method ParseMultiPropResponse(results: Json, request: map<string, Json>) returns (r: Result<seq<Json>>)
      ensures r == MultiProp(results, request)
    {
      if !Truthy(results) || !results.JList? {
        return Raised(Error(NoResultsMessage));
      }
      var mapped, sparcResponse, sparcResponseProps := CollectMapped(results.items);
      if mapped.Raised? {
        return Raised(mapped.exc);
      }
      var props := Index(JObj(request), "props");
      if props.Raised? {
        return Raised(props.exc);
      }
      var ps := Items(props.value);
      if ps.Raised? {
        return Raised(ps.exc);
      }
      sparcResponse := AppendMissing(sparcResponse, ps.value, sparcResponseProps);
      return Ok(sparcResponse);
    }

    /** makeCallForPka, then getPkaResults on its answer. */
    method HandlePka(request: map<string, Json>, backend: Backend) returns (r: Json)
      modifies this, backend
      ensures r == PkaOutcome(request, old(backend.pending))
      ensures results == SparcOutcome(old(backend.pending), maxRetries)
      ensures ResentOnly(backend.sent, old(backend.sent), PkaPost(), AttemptsMade(old(backend.pending), SparcAccepts, maxRetries))
    {
      var response := RequestLogic(PkaPost(), backend);
      var pkaData := GetPkaResults(response);
      if pkaData.Raised? {
        return TimedOut(request);
      }
      var responseDict := CopyResponse(request);
      responseDict := responseDict["request_post" := JObj(request)]["method" := JNull];
      assert responseDict == ResponseBase(request);
      return JObj(responseDict["data" := pkaData.value]["prop" := JStr("ion_con")]);
    }

    /** makeCallForLogD, then getLogDForPH at the request's pH. */
    method HandleLogD(request: map<string, Json>, backend: Backend, parse: FloatParser) returns (r: Json)
      modifies this, backend
      ensures r == LogDOutcome(request, old(backend.pending), parse)
      ensures results == SparcOutcome(old(backend.pending), maxRetries)
      ensures ResentOnly(backend.sent, old(backend.sent), LogDPost(), AttemptsMade(old(backend.pending), SparcAccepts, maxRetries))
    {
      var response := RequestLogic(LogDPost(), backend);
      var ph := Index(JObj(request), "ph");
      if ph.Raised? {
        return TimedOut(request);
      }
      var logD := GetLogDForPH(response, ph.value, parse);
      if logD.Raised? {
        return TimedOut(request);
      }
      var responseDict := CopyResponse(request);
      responseDict := responseDict["request_post" := JObj(request)]["method" := JNull];
      assert responseDict == ResponseBase(request);
      return JObj(responseDict["data" := logD.value]["prop" := JStr("kow_wph")]);
    }

    /** makeDataRequest with the multi-property query, then
        parseMultiPropResponse when the answer has calculationResults. */
    method HandleMultiProperty(request: map<string, Json>, backend: Backend) returns (r: Json)
      modifies this, backend
      ensures r == MultiOutcome(request, old(backend.pending))
      ensures results == SparcOutcome(old(backend.pending), maxRetries)
      ensures ResentOnly(backend.sent, old(backend.sent), SparcQuery(), AttemptsMade(old(backend.pending), SparcAccepts, maxRetries))
    {
      var query := GetSparcQuery();
      var multiResponse := RequestLogic(query, backend);
      var present := Contains(multiResponse, "calculationResults");
      if present.Raised? {
        return TimedOut(request);
      }
      if !present.value {
        return JNull;
      }
      var calcResults := Index(multiResponse, "calculationResults");
      if calcResults.Raised? {
        return TimedOut(request);
      }
      var parsed := ParseMultiPropResponse(calcResults.value, request);
      if parsed.Raised? {
        return TimedOut(request);
      }
      return JList(parsed.value);
    }

    /** data_request_handler: fills the request's defaults in place, then
        dispatches on the requested prop: ion_con to the pKa endpoint,
        kow_wph to the logD endpoint, anything else to the multi-property
        query. Any exception becomes a "request timed out" response. */
    method DataRequestHandler(request: Dict, backend: Backend, parse: FloatParser) returns (r: Json)
      modifies request, this, backend
      ensures request.items == FillDefaults(old(request.items))
      ensures r == HandlerOutcome(request.items, old(backend.pending), parse)
      ensures results == SparcOutcome(old(backend.pending), maxRetries)
      ensures ResentOnly(backend.sent, old(backend.sent), PayloadFor(EndpointFor(Lookup(request.items, "prop"))),
                         AttemptsMade(old(backend.pending), SparcAccepts, maxRetries))
    {
      FillRequestDefaults(request);
      var prop := Get(JObj(request.items), "prop").value;
      if prop == JStr("ion_con") {
        r := HandlePka(request.items, backend);
      } else if prop == JStr("kow_wph") {
        r := HandleLogD(request.items, backend, parse);
      } else {
        r := HandleMultiProperty(request.items, backend);
      }
    }

    /** With the server unreachable for every attempt, the pKa and logD
        requests come back as "request timed out", while a multi-property
        request falls off the end of the handler and returns None. */
    lemma UnreachableServer(request: map<string, Json>, parse: FloatParser)
      requires "prop" in request
      ensures var r := HandlerOutcome(request, [], parse);
        match EndpointFor(request["prop"])
        case FullSpeciation => r == TimedOut(request)
        case LogD => r == TimedOut(request)
        case MultiProperty => r == JNull
    {
      var answer := SparcOutcome([], maxRetries);
      assert forall j: nat :: ReplyAt([], j) == Unreachable;
      assert answer == JStr(ServerNotFound);
      SentinelLacksCalculationResults();
    }

    /** A pKa answer the handler returns carries the request's keys (but
        'nodes'), the request itself under request_post, and prop ion_con. */
    lemma PkaResponseEchoesRequest(request: map<string, Json>, replies: seq<Reply>, parse: FloatParser)
      requires "prop" in request && request["prop"] == JStr("ion_con")
      requires PkaResults(SparcOutcome(replies, maxRetries)).Ok?
      ensures var r := HandlerOutcome(request, replies, parse);
        r.JObj? && r.fields["prop"] == JStr("ion_con")
        && r.fields["request_post"] == JObj(request) && r.fields["method"] == JNull
        && r.fields["data"] == PkaResults(SparcOutcome(replies, maxRetries)).value
        && forall k :: k in request && k !in {"nodes", "request_post", "method", "data", "prop"} ==> r.fields[k] == request[k]
    {
    }
  }

  /** The `{'pKa': [], 'pKb': []}` dict getPkaAndPkbFromResults appends to. */
  class PkaLists {
    var pKa: seq<Json>
    var pKb: seq<Json>

    constructor ()
      ensures pKa == [] && pKb == []
    {
      pKa := [];
      pKb := [];
    }
  }
}
