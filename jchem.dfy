/**
 The Jchem property adapter (cts_calcs/jchem_properties.py): the table from
 requested props to property classes, the bounded retry loop that posts a
 structure with the class's parameters, and the extractors that read the
 decoded answer: pKa lists, the pH-exact solubility lookup, the per-class
 `get_data` dispatch, the `{calc, prop, data}` wrapping and the speciation
 summary.
 */
module Jchem {
  import opened PyJson
  import opened Transport
  import Sparc

  // ---------------------------------------------------------------------
  // Property classes
  // ---------------------------------------------------------------------

  /** The property classes of the module. */
  datatype PropKind =
    | Pka | IsoelectricPoint | MajorMicrospecies | Tautomerization | Stereoisomer
    | Solubility | LogP | LogD | ElementalAnalysis

  /** The request props each class serves. */
  function PropKeys(kind: PropKind): set<string> {
    match kind
    case Pka => {"pKa", "ion_con"}
    case IsoelectricPoint => {"isoelectricPoint"}
    case MajorMicrospecies => {"majorMicrospecies"}
    case Tautomerization => {"tautomerization"}
    case Stereoisomer => {"stereoisomer"}
    case Solubility => {"solubility", "water_sol", "water_sol_ph"}
    case LogP => {"logP", "kow_no_ph"}
    case LogD => {"logD", "kow_wph"}
    case ElementalAnalysis => {"elementalAnalysis"}
  }

  /** getPropObject: the class for a requested prop, tried in the order of
      the source's if-chain. */
  function GetPropObject(prop: Json): (r: Result<PropKind>)
    ensures r.Raised? ==> r.exc == ValueError
  {
    if prop == JStr("pKa") || prop == JStr("ion_con") then Ok(Pka)
    else if prop == JStr("isoelectricPoint") then Ok(IsoelectricPoint)
    else if prop == JStr("majorMicrospecies") then Ok(MajorMicrospecies)
    else if prop == JStr("tautomerization") then Ok(Tautomerization)
    else if prop == JStr("stereoisomer") then Ok(Stereoisomer)
    else if prop == JStr("solubility") || prop == JStr("water_sol") || prop == JStr("water_sol_ph") then Ok(Solubility)
    else if prop == JStr("logP") || prop == JStr("kow_no_ph") then Ok(LogP)
    else if prop == JStr("logD") || prop == JStr("kow_wph") then Ok(LogD)
    else if prop == JStr("elementalAnalysis") then Ok(ElementalAnalysis)
    else Raised(ValueError)
  }

  /** The dispatch agrees with the table: a prop gets a class exactly when
      the class serves it, and is refused exactly when no class does. */
  lemma GetPropObjectFollowsTable(prop: Json, kind: PropKind)
    ensures GetPropObject(prop) == Ok(kind) <==> prop.JStr? && prop.s in PropKeys(kind)
    ensures GetPropObject(prop).Raised? <==> forall k: PropKind :: !(prop.JStr? && prop.s in PropKeys(k))
  {
    if prop.JStr? && GetPropObject(prop).Raised? {
      forall k: PropKind
        ensures prop.s !in PropKeys(k)
      {
        match k
        case Pka =>
        case IsoelectricPoint =>
        case MajorMicrospecies =>
        case Tautomerization =>
        case Stereoisomer =>
        case Solubility =>
        case LogP =>
        case LogD =>
        case ElementalAnalysis =>
      }
    } else if GetPropObject(prop).Ok? {
      var found := GetPropObject(prop).value;
      assert prop.JStr? && prop.s in PropKeys(found);
    }
  }

  /** The parameters each class starts with. */
  function DefaultPostData(kind: PropKind): map<string, Json> {
    match kind
    case Pka =>
      map["pHLower" := JNum(0.0), "pHUpper" := JNum(14.0), "pHStep" := JNum(0.1),
          "temperature" := JNum(298.0), "micro" := JBool(false),
          "considerTautomerization" := JBool(true), "pKaLowerLimit" := JNum(0.0),
          "pKaUpperLimit" := JNum(14.0), "prefix" := JStr("DYNAMIC")]
    case IsoelectricPoint =>
      map["pHStep" := JNum(0.1), "doublePrecision" := JNum(2.0)]
    case MajorMicrospecies =>
      map["pH" := JNum(7.0), "takeMajorTautomericForm" := JBool(true)]
    case Tautomerization =>
      map["calculationType" := JStr("DOMINANT"), "maxStructureCount" := JNum(1000.0),
          "considerPH" := JBool(true), "pH" := JNum(7.0), "enableMaxPathLength" := JBool(true),
          "maxPathLength" := JNum(4.0), "rationalTautomerGenerationMode" := JBool(false),
          "singleFragmentMode" := JBool(true), "protectAromaticity" := JBool(true),
          "protectCharge" := JBool(true), "excludeAntiAromaticCompounds" := JBool(true),
          "protectDoubleBondStereo" := JBool(false), "protectAllTetrahedralStereoCenters" := JBool(false),
          "protectLabeledTetrahedralStereoCenters" := JBool(false), "protectEsterGroups" := JBool(true),
          "ringChainTautomerizationAllowed" := JBool(false)]
    case Stereoisomer =>
      map["stereoisomerismType" := JStr("TETRAHEDRAL"), "maxStructureCount" := JNum(100.0),
          "protectDoubleBondStereo" := JBool(false), "protectTetrahedralStereo" := JBool(false),
          "filterInvalid3DStructures" := JBool(false)]
    case Solubility =>
      map["pHLower" := JNum(0.0), "pHUpper" := JNum(14.0), "pHStep" := JNum(0.1), "unit" := JStr("MGPERML")]
    case LogP =>
      map["wVG" := JNum(1.0), "wKLOP" := JNum(1.0), "wPHYS" := JNum(1.0), "Cl" := JNum(0.1),
          "NaK" := JNum(0.1), "considerTautomerization" := JBool(false)]
    case LogD =>
      map["pHLower" := JNum(0.0), "pHUpper" := JNum(14.0), "pHStep" := JNum(0.1),
          "wVG" := JNum(1.0), "wKLOP" := JNum(1.0), "wPHYS" := JNum(1.0), "Cl" := JNum(0.1),
          "NaK" := JNum(0.1), "considerTautomerization" := JBool(false)]
    case ElementalAnalysis =>
      map["singleFragmentMode" := JBool(true), "symbolID" := JBool(true)]
  }

  // ---------------------------------------------------------------------
  // The request and its retry loop
  // ---------------------------------------------------------------------

  /** The result-display block merged into every class's parameters. */
  const ResultDisplay: Json :=
    JObj(map["include" := JList([JStr("structureData"), JStr("image")]),
             "parameters" := JObj(map["structureData" := JStr("smiles")])])

  /** The parameters make_data_request leaves in `postData`: the
      result-display block always, the method only when it is truthy, and
      every other parameter as it was. */
  function Parameters(postData: map<string, Json>, calcMethod: Json): (ps: map<string, Json>)
    ensures ps.Keys == postData.Keys + {"result-display"} + (if Truthy(calcMethod) then {"method"} else {})
    ensures ps["result-display"] == ResultDisplay
    ensures Truthy(calcMethod) ==> ps["method"] == calcMethod
    ensures forall k :: k in postData && k != "result-display" && !(k == "method" && Truthy(calcMethod)) ==>
      ps[k] == postData[k]
  {
    var withDisplay := postData["result-display" := ResultDisplay];
    if Truthy(calcMethod) then withDisplay["method" := calcMethod] else withDisplay
  }

  /** The body of the POST: the structure and the parameters. */
  function RequestPayload(structure: Json, parameters: map<string, Json>): Json {
    JObj(map["structure" := structure, "parameters" := JObj(parameters)])
  }

  /** validate_response: only the status code is checked. */
  function ValidateResponse(resp: Response): (ok: bool)
    ensures ok <==> resp.status == 200
  {
    resp.status == 200
  }

  /** A reply that ends make_data_request's loop. */
  predicate JchemAccepts(reply: Reply) {
    reply.Delivered? && ValidateResponse(reply.response)
  }

  /** Every reply the SPARC check accepts ends this loop too, but not
      conversely: a 200 whose body is not JSON ends this loop (with no
      result) and is retried by the SPARC loop. */
  lemma JchemAcceptsMoreThanSparc(reply: Reply)
    ensures Sparc.SparcAccepts(reply) ==> JchemAccepts(reply)
    ensures var undecodable := Delivered(Response(200, None));
      JchemAccepts(undecodable) && !Sparc.SparcAccepts(undecodable)
  {
  }

  /** What make_data_request returns for the replies `replies`: the body of
      the first accepted reply within `limit` attempts, which is None when
      that body does not decode, and None when no attempt is accepted. */
  function JchemOutcome(replies: seq<Reply>, limit: nat): (r: Option<Json>)
    ensures FirstStop(replies, JchemAccepts, limit).None? ==> r.None?
    ensures r.Some? ==> exists i :: 0 <= i < limit && ReplyAt(replies, i) == Delivered(Response(200, r))
  {
    var stop := FirstStop(replies, JchemAccepts, limit);
    if stop.Some? then ReplyAt(replies, stop.value).response.body else None
  }

  /** A first reply with status 200 and an undecodable body gives None
      after a single POST: the loop is not resumed. */
  lemma UndecodableAnswerEndsLoop(replies: seq<Reply>, limit: nat)
    requires 0 < limit && ReplyAt(replies, 0) == Delivered(Response(200, None))
    ensures JchemOutcome(replies, limit).None?
    ensures AttemptsMade(replies, JchemAccepts, limit) == 1
  {
    FirstStopUnique(replies, JchemAccepts, limit, 0);
  }

  /** Three non-200 replies followed by a good one give None: the fourth
      reply is never asked for. */
  lemma ThreeFailuresGiveNone(good: Json)
    ensures var bad := Delivered(Response(500, Some(good)));
      var replies := [bad, Unreachable, bad, Delivered(Response(200, Some(good)))];
      JchemOutcome(replies, 3).None? && AttemptsMade(replies, JchemAccepts, 3) == 3
  {
    var bad := Delivered(Response(500, Some(good)));
    var replies := [bad, Unreachable, bad, Delivered(Response(200, Some(good)))];
    assert !JchemAccepts(ReplyAt(replies, 0)) && !JchemAccepts(ReplyAt(replies, 1)) && !JchemAccepts(ReplyAt(replies, 2));
  }

  /** The retry loop of make_data_request: resends the same POST until a
      reply has status 200 or `limit` attempts have been made. A request
      that raises counts as an attempt; an accepted reply whose body does
      not decode ends the loop with None. */
  method PostUntilValid(payload: Json, limit: nat, backend: Backend) returns (r: Option<Json>)
    modifies backend
    ensures r == JchemOutcome(old(backend.pending), limit)
    ensures var n := AttemptsMade(old(backend.pending), JchemAccepts, limit);
      ResentOnly(backend.sent, old(backend.sent), payload, n)
      && backend.pending == Drop(old(backend.pending), n)
  {
    ghost var replies := backend.pending;
    ghost var sent0 := backend.sent;
    var valid := false;
    var retries := 0;
    while !valid && retries < limit
      invariant 0 <= retries <= limit
      invariant !valid ==> forall j :: 0 <= j < retries ==> !JchemAccepts(ReplyAt(replies, j))
      invariant valid ==> (0 < retries && FirstStop(replies, JchemAccepts, limit) == Some(retries - 1)
        && ReplyAt(replies, retries - 1).response.body.None?)
      invariant backend.pending == Drop(replies, retries)
      invariant ResentOnly(backend.sent, sent0, payload, retries)
      decreases limit - retries
    {
      DropStep(replies, retries);
      ResentOneMore(backend.sent, sent0, payload, retries);
      var reply := backend.Post(payload);
      if reply.Unreachable? {
        retries := retries + 1;
      } else {
        valid := ValidateResponse(reply.response);
        if valid {
          FirstStopUnique(replies, JchemAccepts, limit, retries);
          if reply.response.body.Some? {
            return reply.response.body;
          }
        }
        retries := retries + 1;
      }
    }
    return None;
  }

  /** What a KeyError caught by the extractor turns into: None. */
  function CatchKeyError(r: Result<Json>): (c: Result<Json>)
    ensures r == Raised(KeyError) ==> c == Ok(JNull)
    ensures r.Raised? && r.exc != KeyError ==> c == r
    ensures r.Ok? ==> c == r
    ensures c.Raised? ==> r.exc != KeyError
  {
    if r == Raised(KeyError) then Ok(JNull) else r
  }

  /** A property object: its class, its parameters and its last results. */
  class JchemProperty {
    const kind: PropKind
    const maxRetries: nat
    var postData: map<string, Json>
    var results: Json

    constructor (kind: PropKind)
      ensures this.kind == kind && maxRetries == 3
      ensures postData == DefaultPostData(kind) && results == JStr("")
    {
      this.kind := kind;
      maxRetries := 3;
      postData := DefaultPostData(kind);
      results := JStr("");
    }

    /** make_data_request: merges the result-display block (and a truthy
        method) into `postData`, then posts the structure with those
        parameters; the decoded body of an accepted reply is stored in
        `results` and returned. */
    method MakeDataRequest(structure: Json, calcMethod: Json, backend: Backend) returns (r: Option<Json>)
      modifies this, backend
      ensures postData == Parameters(old(postData), calcMethod)
      ensures r == JchemOutcome(old(backend.pending), maxRetries)
      ensures results == if r.Some? then r.value else old(results)
      ensures var n := AttemptsMade(old(backend.pending), JchemAccepts, maxRetries);
        ResentOnly(backend.sent, old(backend.sent), RequestPayload(structure, postData), n)
        && backend.pending == Drop(old(backend.pending), n)
    {
      postData := postData["result-display" := ResultDisplay];
      if Truthy(calcMethod) {
        postData := postData["method" := calcMethod];
      }
      r := PostUntilValid(RequestPayload(structure, postData), maxRetries, backend);
      if r.Some? {
        results := r.value;
      }
    }

    /** getMostAcidicPka */
    method GetMostAcidicPka() returns (r: Result<seq<Json>>)
      ensures r == ListUnder(results, "mostAcidic")
    {
      r := CollectUnder(results, "mostAcidic");
    }

    /** getMostBasicPka */
    method GetMostBasicPka() returns (r: Result<seq<Json>>)
      ensures r == ListUnder(results, "mostBasic")
    {
      r := CollectUnder(results, "mostBasic");
    }

    /** The class's get_data on its current results. */
    method GetData(request: map<string, Json>, parse: FloatParser, round1: real -> real) returns (r: Result<Json>)
      ensures r == Data(kind, request, results, parse, round1)
    {
      match kind
      case Pka =>
        var acidic := GetMostAcidicPka();
        if acidic.Raised? {
          return Raised(acidic.exc);
        }
        var basic := GetMostBasicPka();
        if basic.Raised? {
          return Raised(basic.exc);
        }
        if acidic.value == [] && basic.value == [] {
          return Ok(JNull);
        }
        return Ok(JObj(map["pKa" := JList(acidic.value), "pKb" := JList(basic.value)]));
      case Solubility =>
        if Lookup(request, "prop") == JStr("water_sol_ph") {
          var ws := GetPHDependentSolubility(results, Lookup(request, "ph"), parse);
          if ws.Raised? {
            return ws;
          }
          return Times1000(ws.value);
        } else if Lookup(request, "prop") == JStr("water_sol") {
          return IntrinsicSolubility(results);
        }
        return Ok(JNull);
      case LogP =>
        return CatchKeyError(Index(results, "logpnonionic"));
      case LogD =>
        return GetLogD(results, Lookup(request, "ph"), parse, round1);
      case ElementalAnalysis =>
        return CatchKeyError(Index(results, "composition"));
      case _ =>
        return Raised(AttributeError);
    }
  }

  // ---------------------------------------------------------------------
  // Extractors
  // ---------------------------------------------------------------------

  /** The list getMostAcidicPka and getMostBasicPka build: the values under
      `key` in order, or an empty list when `key` is absent. */
  function ListUnder(results: Json, key: string): (r: Result<seq<Json>>)
    ensures results.JObj? && key !in results.fields ==> r == Ok([])
    ensures results.JObj? && key in results.fields && results.fields[key].JList? ==>
      r == Ok(results.fields[key].items)
    ensures results.JNull? ==> r == Raised(TypeError)
  {
    match Contains(results, key)
    case Raised(e) => Raised(e)
    case Ok(present) =>
      if !present then Ok([])
      else match Index(results, key)
        case Raised(e) => Raised(e)
        case Ok(values) => Items(values)
  }

  /** The appending loop of getMostAcidicPka and getMostBasicPka. */
  method CollectUnder(results: Json, key: string) returns (r: Result<seq<Json>>)
    ensures r == ListUnder(results, key)
  {
    var present := Contains(results, key);
    if present.Raised? {
      return Raised(present.exc);
    }
    var pkaValList: seq<Json> := [];
    if !present.value {
      return Ok(pkaValList);
    }
    var values := Index(results, key);
    if values.Raised? {
      return Raised(values.exc);
    }
    var items := Items(values.value);
    if items.Raised? {
      return Raised(items.exc);
    }
    var k := 0;
    while k < |items.value|
      invariant 0 <= k <= |items.value|
      invariant pkaValList == items.value[..k]
    {
      pkaValList := pkaValList + [items.value[k]];
      k := k + 1;
    }
    assert items.value[..k] == items.value;
    return Ok(pkaValList);
  }

  /** Pka.get_data: both lists, or None when both are empty. */
  function PkaData(results: Json): Result<Json> {
    match ListUnder(results, "mostAcidic")
    case Raised(e) => Raised(e)
    case Ok(acidic) =>
      match ListUnder(results, "mostBasic")
      case Raised(e) => Raised(e)
      case Ok(basic) =>
        if acidic == [] && basic == [] then Ok(JNull)
        else Ok(JObj(map["pKa" := JList(acidic), "pKb" := JList(basic)]))
  }

  /** For a dict of lists, Pka.get_data is None exactly when neither key
      holds a value, and otherwise carries both lists unchanged. */
  lemma PkaDataNoneIffNoValues(fields: map<string, Json>)
    requires "mostAcidic" in fields ==> fields["mostAcidic"].JList?
    requires "mostBasic" in fields ==> fields["mostBasic"].JList?
    ensures var acidic := if "mostAcidic" in fields then fields["mostAcidic"].items else [];
      var basic := if "mostBasic" in fields then fields["mostBasic"].items else [];
      PkaData(JObj(fields)) == if acidic == [] && basic == [] then Ok(JNull)
        else Ok(JObj(map["pKa" := JList(acidic), "pKb" := JList(basic)]))
  {
  }

  /** A failed request leaves None as the results, and Pka.get_data then
      raises TypeError on `'mostAcidic' in None`. */
  lemma PkaDataOnNoAnswer()
    ensures PkaData(JNull) == Raised(TypeError)
  {
  }

  /** The loop of getPHDependentSolubility over the entries: the solubility
      of the first entry whose pH equals `ph`, "N/A" when none does. */
  function ScanSolubility(entries: seq<Json>, ph: real): Result<Json>
    decreases |entries|
  {
    if entries == [] then Ok(JStr("N/A"))
    else match Index(entries[0], "pH")
      case Raised(e) => Raised(e)
      case Ok(itemPh) =>
        match Index(entries[0], "solubility")
        case Raised(e) => Raised(e)
        case Ok(itemWs) => if NumEq(itemPh, ph) then Ok(itemWs) else ScanSolubility(entries[1..], ph)
  }

  /** getPHDependentSolubility: a KeyError anywhere gives None; `float(ph)`
      and iteration errors propagate. */
  function PhDependentSolubility(results: Json, ph: Json, parse: FloatParser): Result<Json> {
    CatchKeyError(
      match Index(results, "pHDependentSolubility")
      case Raised(e) => Raised(e)
      case Ok(table) =>
        match Index(table, "values")
        case Raised(e) => Raised(e)
        case Ok(wsList) =>
          match PyFloat(ph, parse)
          case Raised(e) => Raised(e)
          case Ok(p) =>
            match Items(wsList)
            case Raised(e) => Raised(e)
            case Ok(entries) => ScanSolubility(entries, p))
  }

  /** The same, with its search as a loop. */
  method GetPHDependentSolubility(results: Json, ph: Json, parse: FloatParser) returns (r: Result<Json>)
    ensures r == PhDependentSolubility(results, ph, parse)
  {
    var table := Index(results, "pHDependentSolubility");
    if table.Raised? {
      return CatchKeyError(Raised(table.exc));
    }
    var wsList := Index(table.value, "values");
    if wsList.Raised? {
      return CatchKeyError(Raised(wsList.exc));
    }
    var p := PyFloat(ph, parse);
    if p.Raised? {
      return Raised(p.exc);
    }
    var entries := Items(wsList.value);
    if entries.Raised? {
      return Raised(entries.exc);
    }
    var xs := entries.value;
    var k := 0;
    while k < |xs|
      invariant 0 <= k <= |xs|
      invariant ScanSolubility(xs, p.value) == ScanSolubility(xs[k..], p.value)
    {
      assert xs[k..][1..] == xs[k + 1..];
      var itemPh := Index(xs[k], "pH");
      if itemPh.Raised? {
        return CatchKeyError(Raised(itemPh.exc));
      }
      var itemWs := Index(xs[k], "solubility");
      if itemWs.Raised? {
        return CatchKeyError(Raised(itemWs.exc));
      }
      if NumEq(itemPh.value, p.value) {
        return Ok(itemWs.value);
      }
      k := k + 1;
    }
    assert xs[k..] == [];
    return Ok(JStr("N/A"));
  }

  /** A well-formed solubility entry at `ph`. */
  predicate SolubilityHit(entry: Json, ph: real) {
    entry.JObj? && "pH" in entry.fields && "solubility" in entry.fields && NumEq(entry.fields["pH"], ph)
  }

  /** A well-formed solubility entry elsewhere. */
  predicate SolubilityMiss(entry: Json, ph: real) {
    entry.JObj? && "pH" in entry.fields && "solubility" in entry.fields && !NumEq(entry.fields["pH"], ph)
  }

  /** The first well-formed entry at the requested pH gives its solubility,
      whatever follows: an exact match, without interpolation. */
  lemma {:induction false} SolubilityFirstHit(entries: seq<Json>, ph: real, i: nat)
    requires i < |entries| && SolubilityHit(entries[i], ph)
    requires forall j :: 0 <= j < i ==> SolubilityMiss(entries[j], ph)
    ensures ScanSolubility(entries, ph) == Ok(entries[i].fields["solubility"])
    decreases i
  {
    if i > 0 {
      assert forall j :: 1 <= j < |entries| ==> entries[1..][j - 1] == entries[j];
      SolubilityFirstHit(entries[1..], ph, i - 1);
    }
  }

  /** Entries none of which is at the requested pH give "N/A". */
  lemma {:induction false} SolubilityMissGivesNA(entries: seq<Json>, ph: real)
    requires forall j :: 0 <= j < |entries| ==> SolubilityMiss(entries[j], ph)
    ensures ScanSolubility(entries, ph) == Ok(JStr("N/A"))
    decreases |entries|
  {
    if entries != [] {
      assert forall j :: 1 <= j < |entries| ==> entries[1..][j - 1] == entries[j];
      SolubilityMissGivesNA(entries[1..], ph);
    }
  }

  /** Results without the pH-dependent table give None. */
  lemma SolubilityMissingTableGivesNone(fields: map<string, Json>, ph: Json, parse: FloatParser)
    requires "pHDependentSolubility" !in fields
    ensures PhDependentSolubility(JObj(fields), ph, parse) == Ok(JNull)
  {
  }

  /** Python's `1000.0 * v`: numbers (and bools) scale, anything else
      raises TypeError. */
  function Times1000(v: Json): (r: Result<Json>)
    ensures r.Ok? <==> v.JNum? || v.JBool?
    ensures v.JNum? ==> r == Ok(JNum(1000.0 * v.x))
  {
    match v
    case JNum(x) => Ok(JNum(1000.0 * x))
    case JBool(b) => Ok(JNum(if b then 1000.0 else 0.0))
    case _ => Raised(TypeError)
  }

  /** getIntrinsicSolubility: the intrinsic value in mg/L, None when the key
      is missing. */
  function IntrinsicSolubility(results: Json): Result<Json> {
    CatchKeyError(
      match Index(results, "intrinsicSolubility")
      case Raised(e) => Raised(e)
      case Ok(v) => Times1000(v))
  }

  /** Solubility.get_data: water_sol_ph goes to the pH-dependent lookup,
      water_sol to the intrinsic value, anything else to None. */
  function SolubilityData(request: map<string, Json>, results: Json, parse: FloatParser): Result<Json> {
    if Lookup(request, "prop") == JStr("water_sol_ph") then
      match PhDependentSolubility(results, Lookup(request, "ph"), parse)
      case Raised(e) => Raised(e)
      case Ok(ws) => Times1000(ws)
    else if Lookup(request, "prop") == JStr("water_sol") then IntrinsicSolubility(results)
    else Ok(JNull)
  }

  /** The three branches of Solubility.get_data. A pH-dependent lookup that
      finds nothing ("N/A") or no table (None) is multiplied by 1000.0 all
      the same, which raises TypeError: the sentinels never reach the
      caller. */
  lemma SolubilityDataBranches(request: map<string, Json>, results: Json, parse: FloatParser)
    ensures Lookup(request, "prop") == JStr("water_sol") ==>
      SolubilityData(request, results, parse) == IntrinsicSolubility(results)
    ensures Lookup(request, "prop") != JStr("water_sol_ph") && Lookup(request, "prop") != JStr("water_sol") ==>
      SolubilityData(request, results, parse) == Ok(JNull)
    ensures Lookup(request, "prop") == JStr("water_sol_ph") && PhDependentSolubility(results, Lookup(request, "ph"), parse) == Ok(JStr("N/A")) ==>
      SolubilityData(request, results, parse) == Raised(TypeError)
    ensures Lookup(request, "prop") == JStr("water_sol_ph") && PhDependentSolubility(results, Lookup(request, "ph"), parse) == Ok(JNull) ==>
      SolubilityData(request, results, parse) == Raised(TypeError)
  {
  }

  /** The loop of getLogD: the logD of the first pair whose pH equals the
      rounded target; a loop that finds none leaves `value` unbound. */
  function ScanLogD(pairs: seq<Json>, target: real): Result<Json>
    decreases |pairs|
  {
    if pairs == [] then Raised(UnboundLocalError)
    else match Index(pairs[0], "pH")
      case Raised(e) => Raised(e)
      case Ok(x) => if NumEq(x, target) then Index(pairs[0], "logD") else ScanLogD(pairs[1..], target)
  }

  /** LogD.get_data: `round(float(ph), 1)` is `round1` applied to the parsed
      pH; a KeyError gives None. */
  function GetLogD(results: Json, ph: Json, parse: FloatParser, round1: real -> real): Result<Json> {
    CatchKeyError(
      match PyFloat(ph, parse)
      case Raised(e) => Raised(e)
      case Ok(p) =>
        match Index(results, "chartData")
        case Raised(e) => Raised(e)
        case Ok(chart) =>
          match Index(chart, "values")
          case Raised(e) => Raised(e)
          case Ok(values) =>
            match Items(values)
            case Raised(e) => Raised(e)
            case Ok(pairs) => ScanLogD(pairs, round1(p)))
  }

  /** A chart none of whose points is at the rounded pH raises
      UnboundLocalError rather than giving None. */
  lemma {:induction false} LogDMissIsUnbound(pairs: seq<Json>, target: real)
    requires forall j :: 0 <= j < |pairs| ==> pairs[j].JObj? && "pH" in pairs[j].fields && !NumEq(pairs[j].fields["pH"], target)
    ensures ScanLogD(pairs, target) == Raised(UnboundLocalError)
    decreases |pairs|
  {
    if pairs != [] {
      assert forall j :: 1 <= j < |pairs| ==> pairs[1..][j - 1] == pairs[j];
      LogDMissIsUnbound(pairs[1..], target);
    }
  }

  /** get_data of each class. The classes without a get_data of their own
      (isoelectric point, major microspecies, tautomers, stereoisomers)
      raise AttributeError. */
  function Data(kind: PropKind, request: map<string, Json>, results: Json, parse: FloatParser, round1: real -> real): Result<Json> {
    match kind
    case Pka => PkaData(results)
    case Solubility => SolubilityData(request, results, parse)
    case LogP => CatchKeyError(Index(results, "logpnonionic"))
    case LogD => GetLogD(results, Lookup(request, "ph"), parse, round1)
    case ElementalAnalysis => CatchKeyError(Index(results, "composition"))
    case _ => Raised(AttributeError)
  }

  // ---------------------------------------------------------------------
  // getJchemPropData
  // ---------------------------------------------------------------------

  /** The CTS data object: calc, prop and data, with the method added only
      when it is truthy. */
  function ResultDict(request: map<string, Json>, data: Json): map<string, Json> {
    var base := map["calc" := JStr("chemaxon"), "prop" := Lookup(request, "prop"), "data" := data];
    if Truthy(Lookup(request, "method")) then base["method" := Lookup(request, "method")] else base
  }

  /** What getJchemPropData returns when the server answers with
      `replies`. A request that got no answer leaves None as the results. */
  function JchemPropData(request: map<string, Json>, replies: seq<Reply>, parse: FloatParser, round1: real -> real): Result<Json> {
    match GetPropObject(Lookup(request, "prop"))
    case Raised(e) => Raised(e)
    case Ok(kind) =>
      var answer := JchemOutcome(replies, 3);
      match Data(kind, request, if answer.Some? then answer.value else JNull, parse, round1)
      case Raised(e) => Raised(e)
      case Ok(data) => Ok(JObj(ResultDict(request, data)))
  }

  /** getJchemPropData: the prop's class, its request (with the request's
      method), its get_data, wrapped as a CTS data object. An unknown prop
      raises before anything is posted. */
  method GetJchemPropData(request: map<string, Json>, backend: Backend, parse: FloatParser, round1: real -> real)
    returns (r: Result<Json>)
    modifies backend
    ensures r == JchemPropData(request, old(backend.pending), parse, round1)
    ensures GetPropObject(Lookup(request, "prop")).Raised? ==> backend.sent == old(backend.sent)
  {
    var kind := GetPropObject(Lookup(request, "prop"));
    if kind.Raised? {
      return Raised(kind.exc);
    }
    var propObj := new JchemProperty(kind.value);
    var answer := propObj.MakeDataRequest(Lookup(request, "chemical"), Lookup(request, "method"), backend);
    propObj.results := if answer.Some? then answer.value else JNull;
    var data := propObj.GetData(request, parse, round1);
    if data.Raised? {
      return Raised(data.exc);
    }
    propObj.results := data.value;
    return Ok(JObj(ResultDict(request, data.value)));
  }

  /** Every answer of getJchemPropData is a chemaxon data object for the
      requested prop, carrying a method exactly when the request's method
      is truthy. */
  lemma JchemPropDataShape(request: map<string, Json>, replies: seq<Reply>, parse: FloatParser, round1: real -> real)
    ensures var r := JchemPropData(request, replies, parse, round1);
      r.Ok? ==> (r.value.JObj? && r.value.fields["calc"] == JStr("chemaxon")
        && r.value.fields["prop"] == Lookup(request, "prop")
        && ("method" in r.value.fields <==> Truthy(Lookup(request, "method"))))
    ensures GetPropObject(Lookup(request, "prop")).Raised? ==>
      JchemPropData(request, replies, parse, round1) == Raised(ValueError)
  {
  }

  // ---------------------------------------------------------------------
  // getSpeciationResults
  // ---------------------------------------------------------------------

  /** The getters of the speciation summary other than the pKa lists and
      the isoelectric point; they read images and ask the structure
      service, so their answers are supplied by the caller. */
  datatype Getter = Parent | Microspecies | PkaChartData | MajorMicrospeciesGetter | IsoelectricChartData | Tautomers | Stereoisomers

  /** A getter applied to a property object's results. */
  type GetterOracle = (Getter, Json) -> Result<Json>

  /** The keys the summary gains for each input key. */
  function OutputKeys(key: string): set<string> {
    if key == "pKa" then {"pka", "pkb", "pka_parent", "pka_microspecies", "pka_chartdata"}
    else if key == "majorMicrospecies" then {"majorMicrospecies"}
    else if key == "isoelectricPoint" then {"isoelectricPoint", "isopt_chartdata"}
    else if key == "tautomerization" then {"tautomers"}
    else if key == "stereoisomers" then {"stereoisomers"}
    else {}
  }

  /** The entries one property object adds, its getters called in the
      source's order. */
  function SpeciesEntries(key: string, results: Json, getter: GetterOracle): (r: Result<map<string, Json>>)
    ensures r.Ok? ==> r.value.Keys == OutputKeys(key)
  {
    if key == "pKa" then
      match ListUnder(results, "mostAcidic")
      case Raised(e) => Raised(e)
      case Ok(pka) =>
        match ListUnder(results, "mostBasic")
        case Raised(e) => Raised(e)
        case Ok(pkb) =>
          match getter(Parent, results)
          case Raised(e) => Raised(e)
          case Ok(parent) =>
            match getter(Microspecies, results)
            case Raised(e) => Raised(e)
            case Ok(microspecies) =>
              match getter(PkaChartData, results)
              case Raised(e) => Raised(e)
              case Ok(chart) =>
                Ok(map["pka" := JList(pka), "pkb" := JList(pkb), "pka_parent" := parent,
                       "pka_microspecies" := microspecies, "pka_chartdata" := chart])
    else if key == "majorMicrospecies" then
      match getter(MajorMicrospeciesGetter, results)
      case Raised(e) => Raised(e)
      case Ok(v) => Ok(map["majorMicrospecies" := v])
    else if key == "isoelectricPoint" then
      match CatchKeyError(Index(results, "isoelectricPoint"))
      case Raised(e) => Raised(e)
      case Ok(point) =>
        match getter(IsoelectricChartData, results)
        case Raised(e) => Raised(e)
        case Ok(chart) => Ok(map["isoelectricPoint" := point, "isopt_chartdata" := chart])
    else if key == "tautomerization" then
      match getter(Tautomers, results)
      case Raised(e) => Raised(e)
      case Ok(v) => Ok(map["tautomers" := v])
    else if key == "stereoisomers" then
      match getter(Stereoisomers, results)
      case Raised(e) => Raised(e)
      case Ok(v) => Ok(map["stereoisomers" := v])
    else Ok(map[])
  }

  /** The summary of the property objects `objects`, in the dict's order;
      a None object is skipped. Each object is given by its results. */
  function SpeciationResults(objects: seq<(string, Option<Json>)>, getter: GetterOracle): Result<map<string, Json>>
    decreases |objects|
  {
    if objects == [] then Ok(map[])
    else
      match SpeciationResults(objects[..|objects| - 1], getter)
      case Raised(e) => Raised(e)
      case Ok(summary) =>
        var (key, value) := objects[|objects| - 1];
        if value.None? then Ok(summary)
        else match SpeciesEntries(key, value.value, getter)
          case Raised(e) => Raised(e)
          case Ok(entries) => Ok(summary + entries)
  }

  /** getSpeciationResults, as the loop updating the summary dict. */
  method GetSpeciationResults(objects: seq<(string, Option<Json>)>, getter: GetterOracle) returns (r: Result<map<string, Json>>)
    ensures r == SpeciationResults(objects, getter)
  {
    var summary: map<string, Json> := map[];
    var k := 0;
    while k < |objects|
      invariant 0 <= k <= |objects|
      invariant SpeciationResults(objects[..k], getter) == Ok(summary)
    {
      assert objects[..k + 1][..k] == objects[..k];
      var (key, value) := objects[k];
      if value.Some? {
        var entries := SpeciesEntries(key, value.value, getter);
        if entries.Raised? {
          assert SpeciationResults(objects[..k + 1], getter) == Raised(entries.exc);
          PrefixRaisedStaysRaised(objects, getter, k + 1);
          return Raised(entries.exc);
        }
        summary := summary + entries.value;
      }
      k := k + 1;
    }
    assert objects[..k] == objects;
    return Ok(summary);
  }

  /** Once a prefix of the objects raises, the whole summary raises the
      same exception. */
  lemma {:induction false} PrefixRaisedStaysRaised(objects: seq<(string, Option<Json>)>, getter: GetterOracle, k: nat)
    requires k <= |objects| && SpeciationResults(objects[..k], getter).Raised?
    ensures SpeciationResults(objects, getter) == SpeciationResults(objects[..k], getter)
    decreases |objects| - k
  {
    if k < |objects| {
      assert objects[..k + 1][..k] == objects[..k];
      PrefixRaisedStaysRaised(objects, getter, k + 1);
    } else {
      assert objects[..k] == objects;
    }
  }

  /** The summary holds exactly the keys of the objects present (not None)
      among pKa, majorMicrospecies, isoelectricPoint, tautomerization and
      stereoisomers. */
  lemma {:induction false} SpeciationKeys(objects: seq<(string, Option<Json>)>, getter: GetterOracle)
    requires SpeciationResults(objects, getter).Ok?
    ensures forall out :: out in SpeciationResults(objects, getter).value <==>
      exists i :: 0 <= i < |objects| && objects[i].1.Some? && out in OutputKeys(objects[i].0)
    decreases |objects|
  {
    if objects != [] {
      var init := objects[..|objects| - 1];
      SpeciationKeys(init, getter);
      assert forall i :: 0 <= i < |init| ==> init[i] == objects[i];
    }
  }
}
