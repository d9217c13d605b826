/**
 The calculator base class (cts_calcs/calculator.py): classification of a
 decoded backend payload, the wrapping `web_call` applies to it, the propMap
 lookups, the result selection of `get_chemical_type`, and the melting-point
 fallback across the measured, test and epi calculators.
 */
module Calculator {
  import opened PyJson
  import opened Transport

  /** Default key/values of a p-chem request (`pchem_request`). */
  const PchemRequest: map<string, Json> := map[
    "service" := JNull, "chemical" := JNull, "prop" := JNull,
    "sessionid" := JNull, "method" := JNull, "ph" := JNum(7.0),
    "node" := JNull, "calc" := JNull, "run_type" := JNull,
    "workflow" := JNull, "mass" := JNull, "props" := JList([])]

  // ---------------------------------------------------------------------
  // Response classification
  // ---------------------------------------------------------------------

  /** The keys whose presence marks a payload as a backend-reported error. */
  const ErrorKeys: set<string> := {"errorMessage", "errorCode", "error"}

  const NotADictMessage := "Error processing calc results"
  const CannotStandardizeMessage := "Chemical cannot be standardized"
  const NotRecognizedMessage := "Chemical not recognized"

  /** `{'valid': ..., 'error': ...}` as check_response_for_errors builds it. */
  datatype Validation = Validation(valid: bool, error: Option<string>)

  /** A payload the classifier accepts: a dict carrying no error key. */
  predicate IsValidPayload(results: Json) {
    results.JObj? && results.fields.Keys !! ErrorKeys
  }

  /** handle_error_messages: the user-facing message for an error payload. */
  function HandleErrorMessages(results: map<string, Json>): (msg: string)
    ensures msg == CannotStandardizeMessage || msg == NotRecognizedMessage
    ensures msg == CannotStandardizeMessage <==> NumEq(Lookup(results, "errorCode"), 3.0)
  {
    if NumEq(Lookup(results, "errorCode"), 3.0) then CannotStandardizeMessage
    else NotRecognizedMessage
  }

  /** The message attached to a payload the classifier rejects. */
  function ErrorMessage(results: Json): string {
    if results.JObj? then HandleErrorMessages(results.fields) else NotADictMessage
  }

  /** check_response_for_errors: walks the payload's keys and records the
      error message whenever one of them is an error key. */
  method CheckResponseForErrors(results: Json) returns (v: Validation)
    ensures v.valid <==> IsValidPayload(results)
    ensures v.valid <==> v.error.None?
    ensures !results.JObj? ==> v.error == Some(NotADictMessage)
    ensures results.JObj? && !v.valid ==> v.error == Some(HandleErrorMessages(results.fields))
  {
    v := Validation(false, None);
    if !results.JObj? {
      v := v.(error := Some(NotADictMessage));
      return;
    }
    var keys := results.fields.Keys;
    ghost var seen: set<string> := {};
    while keys != {}
      invariant keys + seen == results.fields.Keys && keys !! seen
      invariant !v.valid
      invariant v.error == if seen !! ErrorKeys then None else Some(HandleErrorMessages(results.fields))
      decreases keys
    {
      var key :| key in keys;
      if key in ErrorKeys {
        v := v.(error := Some(HandleErrorMessages(results.fields)));
      }
      keys := keys - {key};
      seen := seen + {key};
    }
    if v.error.None? {
      v := v.(valid := true);
    }
  }

  /** What web_call returns once the response body is decoded: a valid
      payload with `valid: True` added, anything else wrapped as
      `{error, data: payload, valid: False}`. */
  function Wrap(results: Json): (wrapped: Json)
    ensures wrapped.JObj? && "valid" in wrapped.fields
    ensures wrapped.fields["valid"] == JBool(IsValidPayload(results))
    ensures IsValidPayload(results) ==>
      wrapped.fields - {"valid"} == results.fields - {"valid"}
    ensures !IsValidPayload(results) ==>
      wrapped.fields == map["error" := JStr(ErrorMessage(results)), "data" := results, "valid" := JBool(false)]
  {
    if IsValidPayload(results) then JObj(results.fields["valid" := JBool(true)])
    else JObj(map["error" := JStr(ErrorMessage(results)), "data" := results, "valid" := JBool(false)])
  }

  /** web_call's wrapping, built from the classifier's verdict. */
  method WebCall(results: Json) returns (wrapped: Json)
    ensures wrapped == Wrap(results)
  {
    var check := CheckResponseForErrors(results);
    if check.valid {
      wrapped := JObj(results.fields["valid" := JBool(true)]);
    } else {
      wrapped := JObj(map["error" := JStr(check.error.value), "data" := results, "valid" := JBool(false)]);
    }
  }

  /** web_call for one reply: a POST that raised re-raises, a body that is
      not JSON makes `json.loads` raise ValueError, a decoded body is
      wrapped. */
  function WebCallOutcome(reply: Reply): Result<Json> {
    if reply.Unreachable? then Raised(RequestFailed)
    else if reply.response.body.None? then Raised(ValueError)
    else Ok(Wrap(reply.response.body.value))
  }

  /** The selection get_chemical_type makes once the request is answered;
      `decoded` is None when the POST or the decoding raised. The type is
      the one under `properties` when that one is truthy, otherwise the
      top-level one when that is truthy. */
  method GetChemicalType(decoded: Option<Json>) returns (r: Result<map<string, Json>>)
    ensures decoded.None? ==> r == Ok(map["type" := JNull])
    ensures decoded.Some? && !IsValidPayload(decoded.value) ==>
      r == Ok(map["type" := JNull, "error" := JStr(ErrorMessage(decoded.value))])
    ensures decoded.Some? && IsValidPayload(decoded.value) ==>
      var fields := decoded.value.fields;
      var inner := if "properties" in fields then Get(fields["properties"], "type") else Ok(JNull);
      if inner.Raised? then r == Raised(AttributeError)
      else (r.Ok? && r.value.Keys == {"type"}
        && (Truthy(inner.value) ==> r.value["type"] == inner.value)
        && (!Truthy(inner.value) && Truthy(Lookup(fields, "type")) ==> r.value["type"] == fields["type"])
        && (!Truthy(inner.value) && !Truthy(Lookup(fields, "type")) ==> r.value["type"] == inner.value))
  {
    if decoded.None? {
      return Ok(map["type" := JNull]);
    }
    var results := decoded.value;
    var response := map["type" := JNull];
    var check := CheckResponseForErrors(results);
    if !check.valid {
      response := response["error" := JStr(check.error.value)];
      return Ok(response);
    }
    if "properties" in results.fields {
      var inner := Get(results.fields["properties"], "type");
      if inner.Raised? {
        return Raised(inner.exc);
      }
      response := response["type" := inner.value];
    }
    if !Truthy(response["type"]) && Truthy(Lookup(results.fields, "type")) {
      response := response["type" := results.fields["type"]];
    }
    return Ok(response);
  }

  // ---------------------------------------------------------------------
  // propMap lookups
  // ---------------------------------------------------------------------

  /** One entry of a calculator's propMap. */
  datatype PropEntry = PropEntry(urlKey: string, propKey: string, resultKey: string)

  /** A calculator's urlStruct: a format string with one `{}` slot, or
      plain text without one. */
  datatype UrlTemplate = Fixed(text: string) | Slot(prefix: string, suffix: string)

  /** `urlStruct.format(arg)` */
  function Format(t: UrlTemplate, arg: string): string {
    match t
    case Fixed(text) => text
    case Slot(prefix, suffix) => prefix + arg + suffix
  }

  const UrlNotFound := "Error: url key not found"
  const PropNotFound := "Error: prop not found"
  const ResultKeyNotFound := "Error: result key not found"

  function GetUrl(propMap: map<string, PropEntry>, urlStruct: UrlTemplate, prop: string): (url: string)
    ensures prop in propMap ==> url == Format(urlStruct, propMap[prop].urlKey)
    ensures prop !in propMap ==> url == UrlNotFound
  {
    if prop in propMap then Format(urlStruct, propMap[prop].urlKey) else UrlNotFound
  }

  function GetPropKey(propMap: map<string, PropEntry>, prop: string): (key: string)
    ensures prop in propMap ==> key == propMap[prop].propKey
    ensures prop !in propMap ==> key == PropNotFound
  {
    if prop in propMap then propMap[prop].propKey else PropNotFound
  }

  function GetResultKey(propMap: map<string, PropEntry>, prop: string): (key: string)
    ensures prop in propMap ==> key == propMap[prop].resultKey
    ensures prop !in propMap ==> key == ResultKeyNotFound
  {
    if prop in propMap then propMap[prop].resultKey else ResultKeyNotFound
  }

  /** The error strings are in-band: a caller can tell a missing prop from a
      found one only when no mapped value spells the error string. Under that
      condition the lookups return their error string exactly when the prop
      is missing. */
  lemma LookupErrorsAreUnambiguous(propMap: map<string, PropEntry>, urlStruct: UrlTemplate, prop: string)
    requires forall p :: p in propMap ==> Format(urlStruct, propMap[p].urlKey) != UrlNotFound
    requires forall p :: p in propMap ==> propMap[p].propKey != PropNotFound
    requires forall p :: p in propMap ==> propMap[p].resultKey != ResultKeyNotFound
    ensures GetUrl(propMap, urlStruct, prop) == UrlNotFound <==> prop !in propMap
    ensures GetPropKey(propMap, prop) == PropNotFound <==> prop !in propMap
    ensures GetResultKey(propMap, prop) == ResultKeyNotFound <==> prop !in propMap
  {
  }

  // ---------------------------------------------------------------------
  // Melting-point fallback
  // ---------------------------------------------------------------------

  /** The fixed inputs of one get_melting_point call: the structure, the
      session, the name of the requesting calculator, its
      data_request_handler (an oracle from request to response) and the
      parser behind `float()` of a string. */
  datatype MpContext = MpContext(
    structure: Json, sessionid: Json, requester: string,
    answer: map<string, Json> -> Json, parse: FloatParser)

  /** The sources asked, in priority order: epi is asked last, and only when
      the requester is not epi itself. */
  function MeltingPointSources(requester: string): (sources: seq<string>)
    ensures |sources| == if requester == "epi" then 2 else 3
    ensures sources[..2] == ["measured", "test"]
    ensures "epi" in sources <==> requester != "epi"
  {
    ["measured", "test"] + if requester != "epi" then ["epi"] else []
  }

  /** The request dict sent to `source`: method "hc" is set only when the
      requester is test. */
  function MeltingPointRequest(ctx: MpContext, source: string): (request: map<string, Json>)
    ensures request.Keys == {"calc", "prop", "chemical", "sessionid"} + if ctx.requester == "test" then {"method"} else {}
    ensures request["calc"] == JStr(source) && request["prop"] == JStr("melting_point")
    ensures request["chemical"] == ctx.structure && request["sessionid"] == ctx.sessionid
    ensures "method" in request ==> request["method"] == JStr("hc")
  {
    var base := map["calc" := JStr(""), "prop" := JStr("melting_point"),
                    "chemical" := ctx.structure, "sessionid" := ctx.sessionid];
    var withMethod := if ctx.requester == "test" then base["method" := JStr("hc")] else base;
    withMethod["calc" := JStr(source)]
  }

  /** The requests to two sources differ only in `calc`. */
  lemma RetargetRequest(ctx: MpContext, from: string, to: string)
    ensures MeltingPointRequest(ctx, from)["calc" := JStr(to)] == MeltingPointRequest(ctx, to)
  {
  }

  /** The data of the last `melting_point` entry of a list of `{prop, data}`
      objects (`found` if there is none); an entry without `prop`, or a
      matching one without `data`, raises. */
  function LastMeltingPoint(entries: seq<Json>, found: Option<Json>): Result<Option<Json>> {
    if entries == [] then Ok(found)
    else match Index(entries[0], "prop")
      case Raised(e) => Raised(e)
      case Ok(p) =>
        if p == JStr("melting_point") then
          match Index(entries[0], "data")
          case Raised(e) => Raised(e)
          case Ok(d) => LastMeltingPoint(entries[1..], Some(d))
        else LastMeltingPoint(entries[1..], found)
  }

  /** An entry of a `{prop, data}` list that carries the melting point. */
  predicate IsMeltingPointEntry(entry: Json) {
    entry.JObj? && "prop" in entry.fields && entry.fields["prop"] == JStr("melting_point")
  }

  /** On a well-formed list, LastMeltingPoint finds the data of the last
      melting-point entry, and nothing when there is none. */
  lemma {:induction false} LastMeltingPointIsLast(entries: seq<Json>, found: Option<Json>)
    requires forall i :: 0 <= i < |entries| ==> entries[i].JObj? && "prop" in entries[i].fields
    requires forall i :: 0 <= i < |entries| && IsMeltingPointEntry(entries[i]) ==> "data" in entries[i].fields
    ensures (forall i :: 0 <= i < |entries| ==> !IsMeltingPointEntry(entries[i])) ==>
      LastMeltingPoint(entries, found) == Ok(found)
    ensures forall i :: (0 <= i < |entries| && IsMeltingPointEntry(entries[i])
      && (forall j :: i < j < |entries| ==> !IsMeltingPointEntry(entries[j]))) ==>
      LastMeltingPoint(entries, found) == Ok(Some(entries[i].fields["data"]))
    decreases |entries|
  {
    if entries != [] {
      var rest := entries[1..];
      var next := if IsMeltingPointEntry(entries[0]) then Some(entries[0].fields["data"]) else found;
      assert LastMeltingPoint(entries, found) == LastMeltingPoint(rest, next);
      LastMeltingPointIsLast(rest, next);
      forall i | 0 <= i < |entries| && IsMeltingPointEntry(entries[i])
          && (forall j :: i < j < |entries| ==> !IsMeltingPointEntry(entries[j]))
        ensures LastMeltingPoint(entries, found) == Ok(Some(entries[i].fields["data"]))
      {
        if i == 0 {
          assert forall j :: 0 <= j < |rest| ==> !IsMeltingPointEntry(rest[j]) by {
            forall j | 0 <= j < |rest| ensures !IsMeltingPointEntry(rest[j]) {
              assert rest[j] == entries[j + 1];
            }
          }
        } else {
          assert rest[i - 1] == entries[i];
          forall j | i - 1 < j < |rest| ensures !IsMeltingPointEntry(rest[j]) {
            assert rest[j] == entries[j + 1];
          }
        }
      }
      if forall i :: 0 <= i < |entries| ==> !IsMeltingPointEntry(entries[i]) {
        assert !IsMeltingPointEntry(entries[0]);
        forall j | 0 <= j < |rest| ensures !IsMeltingPointEntry(rest[j]) {
          assert rest[j] == entries[j + 1];
        }
      }
    }
  }

  /** The new value of the running `melting_point` variable after asking
      `source`: None when the source leaves it unchanged (a valid epi or
      measured response without a melting-point entry). */
  function MeltingPointCandidate(source: string, response: Json): Result<Option<Json>> {
    if source == "test" then
      match Index(response, "data")
      case Raised(e) => Raised(e)
      case Ok(d) => Ok(Some(d))
    else
      match Get(response, "valid")
      case Raised(e) => Raised(e)
      case Ok(valid) =>
        if !Truthy(valid) then Ok(Some(JNull))
        else
          match Index(response, "data")
          case Raised(e) => Raised(e)
          case Ok(data) =>
            match Items(data)
            case Raised(e) => Raised(e)
            case Ok(entries) => LastMeltingPoint(entries, None)
  }

  /** What asking `source` yields: the float its candidate coerces to, None
      when there is no candidate or it does not coerce, or the exception
      raised while reading the response. */
  function SourceValue(ctx: MpContext, source: string): Result<Option<real>> {
    match MeltingPointCandidate(source, ctx.answer(MeltingPointRequest(ctx, source)))
    case Raised(e) => Raised(e)
    case Ok(c) =>
      if c.Some? && PyFloat(c.value, ctx.parse).Ok? then Ok(Some(PyFloat(c.value, ctx.parse).value))
      else Ok(None)
  }

  /** The outcome of a fallback search and the number of sources asked. */
  datatype Resolution = Resolution(outcome: Result<Option<real>>, asked: nat)

  /** The fallback search over `sources`: the first source whose value is a
      number (or whose response raises) decides, and no later source is
      asked; when none does, the outcome is None after asking them all. */
  function Resolve(ctx: MpContext, sources: seq<string>): (r: Resolution)
    ensures r.outcome == Ok(None) ==>
      r.asked == |sources| && forall j :: 0 <= j < |sources| ==> SourceValue(ctx, sources[j]) == Ok(None)
    ensures r.outcome != Ok(None) ==>
      1 <= r.asked <= |sources| && r.outcome == SourceValue(ctx, sources[r.asked - 1])
      && forall j :: 0 <= j < r.asked - 1 ==> SourceValue(ctx, sources[j]) == Ok(None)
    decreases |sources|
  {
    if sources == [] then Resolution(Ok(None), 0)
    else
      var first := SourceValue(ctx, sources[0]);
      if first != Ok(None) then Resolution(first, 1)
      else
        var rest := Resolve(ctx, sources[1..]);
        assert forall j :: 1 <= j < |sources| ==> sources[j] == sources[1..][j - 1];
        Resolution(rest.outcome, rest.asked + 1)
  }

  /** Any index that is the first deciding source is the one Resolve
      reports. */
  lemma ResolveAt(ctx: MpContext, sources: seq<string>, i: nat)
    requires i < |sources| && SourceValue(ctx, sources[i]) != Ok(None)
    requires forall j :: 0 <= j < i ==> SourceValue(ctx, sources[j]) == Ok(None)
    ensures Resolve(ctx, sources) == Resolution(SourceValue(ctx, sources[i]), i + 1)
  {
  }

  /** The scan of an epi or measured `data` list for melting-point entries,
      in order, keeping the last one found. */
  method ScanForMeltingPoint(entries: seq<Json>) returns (r: Result<Option<Json>>)
    ensures r == LastMeltingPoint(entries, None)
  {
    var found: Option<Json> := None;
    var k := 0;
    while k < |entries|
      invariant 0 <= k <= |entries|
      invariant LastMeltingPoint(entries, None) == LastMeltingPoint(entries[k..], found)
    {
      assert entries[k..][1..] == entries[k + 1..];
      var prop := Index(entries[k], "prop");
      if prop.Raised? {
        return Raised(prop.exc);
      }
      if prop.value == JStr("melting_point") {
        var data := Index(entries[k], "data");
        if data.Raised? {
          return Raised(data.exc);
        }
        found := Some(data.value);
      }
      k := k + 1;
    }
    return Ok(found);
  }

  /** How get_melting_point reads one source's response: test's `data` as
      is; for epi and measured, None when `valid` is falsy, else the last
      melting-point entry of `data` (None: the running value is kept). */
  method ReadCandidate(source: string, response: Json) returns (c: Result<Option<Json>>)
    ensures c == MeltingPointCandidate(source, response)
  {
    if source == "test" {
      var data := Index(response, "data");
      if data.Raised? {
        return Raised(data.exc);
      }
      return Ok(Some(data.value));
    }
    var valid := Get(response, "valid");
    if valid.Raised? {
      return Raised(valid.exc);
    }
    if !Truthy(valid.value) {
      return Ok(Some(JNull));
    }
    var data := Index(response, "data");
    if data.Raised? {
      return Raised(data.exc);
    }
    var entries := Items(data.value);
    if entries.Raised? {
      return Raised(entries.exc);
    }
    c := ScanForMeltingPoint(entries.value);
  }

  /** `log` is `before` followed by the requests to the first `n` sources. */
  ghost predicate AskedInOrder(log: seq<map<string, Json>>, before: seq<map<string, Json>>,
                               ctx: MpContext, sources: seq<string>, n: nat) {
    n <= |sources| && |log| == |before| + n && log[..|before|] == before
    && forall j :: 0 <= j < n ==> log[|before| + j] == MeltingPointRequest(ctx, sources[j])
  }

  lemma AskedOneMore(log: seq<map<string, Json>>, before: seq<map<string, Json>>,
                     ctx: MpContext, sources: seq<string>, n: nat)
    requires n < |sources| && AskedInOrder(log, before, ctx, sources, n)
    ensures AskedInOrder(log + [MeltingPointRequest(ctx, sources[n])], before, ctx, sources, n + 1)
  {
    var log' := log + [MeltingPointRequest(ctx, sources[n])];
    assert log'[..|before|] == log[..|before|];
  }

  /** get_melting_point: asks measured, test and (unless the requester is
      epi) epi in turn, through the requester's data_request_handler, and
      returns the first value that coerces to a float. */
  method GetMeltingPoint(structure: Json, sessionid: Json, requester: string,
                         handler: Oracle<map<string, Json>, Json>, parse: FloatParser)
    returns (mp: Result<Option<real>>)
    modifies handler
    ensures var ctx := MpContext(structure, sessionid, requester, handler.answer, parse);
      var sources := MeltingPointSources(requester);
      var res := Resolve(ctx, sources);
      mp == res.outcome && AskedInOrder(handler.asked, old(handler.asked), ctx, sources, res.asked)
  {
    ghost var ctx := MpContext(structure, sessionid, requester, handler.answer, parse);
    var request := map["calc" := JStr(""), "prop" := JStr("melting_point"),
                       "chemical" := structure, "sessionid" := sessionid];
    var meltingPoint := JNull;
    var sources := ["measured", "test"];
    if requester != "epi" {
      sources := sources + ["epi"];
    }
    if requester == "test" {
      request := request["method" := JStr("hc")];
    }
    assert sources == MeltingPointSources(requester);
    ghost var asked0 := handler.asked;
    ghost var previous := "";
    assert request == MeltingPointRequest(ctx, previous);

    var i := 0;
    while i < |sources|
      invariant 0 <= i <= |sources|
      invariant request == MeltingPointRequest(ctx, previous)
      invariant PyFloat(meltingPoint, parse).Raised?
      invariant forall j :: 0 <= j < i ==> SourceValue(ctx, sources[j]) == Ok(None)
      invariant AskedInOrder(handler.asked, asked0, ctx, sources, i)
    {
      var source := sources[i];
      RetargetRequest(ctx, previous, source);
      request := request["calc" := JStr(source)];
      previous := source;
      ghost var log := handler.asked;
      var response := handler.Ask(request);
      AskedOneMore(log, asked0, ctx, sources, i);
      var candidate := ReadCandidate(source, response);
      if candidate.Raised? {
        ResolveAt(ctx, sources, i);
        return Raised(candidate.exc);
      }
      if candidate.value.Some? {
        meltingPoint := candidate.value.value;
      }
      var asFloat := PyFloat(meltingPoint, parse);
      if asFloat.Ok? {
        ResolveAt(ctx, sources, i);
        return Ok(Some(asFloat.value));
      }
      i := i + 1;
    }
    assert Resolve(ctx, sources).outcome == Ok(None);
    return Ok(None);
  }

  /** Example: epi asks for the melting point, measured answers validly
      with no entry, test answers the string "-187"; the result is -187.0
      after two sources, and epi is not asked. */
  lemma MeltingPointFromTestWhenEpiAsks(ctx: MpContext)
    requires ctx.requester == "epi"
    requires ctx.answer(MeltingPointRequest(ctx, "measured")) == JObj(map["valid" := JBool(true), "data" := JList([])])
    requires ctx.answer(MeltingPointRequest(ctx, "test")) == JObj(map["data" := JStr("-187")])
    requires ctx.parse("-187") == Some(-187.0)
    ensures Resolve(ctx, MeltingPointSources(ctx.requester)) == Resolution(Ok(Some(-187.0)), 2)
  {
    var sources := MeltingPointSources(ctx.requester);
    assert SourceValue(ctx, sources[0]) == Ok(None);
    ResolveAt(ctx, sources, 1);
  }

  /** Fallback ordering: when measured's candidate does not coerce and test
      yields 98.3, the result is 98.3 and epi is never asked. */
  lemma FallbackStopsAtFirstNumber(ctx: MpContext)
    requires ctx.requester == "sparc"
    requires ctx.answer(MeltingPointRequest(ctx, "measured")) ==
      JObj(map["valid" := JBool(true), "data" := JList([JObj(map["prop" := JStr("melting_point"), "data" := JStr("n/a")])])])
    requires ctx.parse("n/a") == None
    requires ctx.answer(MeltingPointRequest(ctx, "test")) == JObj(map["data" := JNum(98.3)])
    ensures Resolve(ctx, MeltingPointSources(ctx.requester)) == Resolution(Ok(Some(98.3)), 2)
  {
    var sources := MeltingPointSources(ctx.requester);
    assert SourceValue(ctx, sources[0]) == Ok(None);
    ResolveAt(ctx, sources, 1);
  }
}
