/**
 The SMILES filter (cts_calcs/smilesfilter.py): the string checks on a
 user's structure (salt separator, brackets, carbon in the elemental
 composition), the mass window, the ordered and short-circuiting
 `filterSMILES` pipeline and the per-calculator `parseSmilesByCalculator`.

 The chemistry web services are one `Oracle` answering each POST by its
 endpoint and payload; the Jchem server is a `Backend`, since the Jchem
 requests go through the retry loop of the Jchem adapter.
 */
module SmilesFilter {
  import opened PyJson
  import opened Transport
  import Calculator
  import Jchem

  /** A POST to a web service endpoint (the server prefix is configuration
      and is left out). */
  datatype Post = Post(endpoint: string, payload: Json)

  const ValidityEndpoint := "/ctsws/rest/isvalidchemical"
  const StandardizerEndpoint := "/ctsws/rest/standardizer"
  const MassEndpoint := "/webservices/rest-v0/util/detail"

  /** `excludestring`; only its first entry is ever consulted. */
  const ExcludeString: seq<string> := [
    ".", "[Ag]", "[Al]", "[As", "[As+", "[Au]", "[B]", "[B-]", "[Br-]", "[Ca]",
    "[Ca+", "[Cl-]", "[Co]", "[Co+", "[Fe]", "[Fe+", "[Hg]", "[K]", "[K+", "[Li]",
    "[Li+", "[Mg]", "[Mg+", "[Na]", "[Na+", "[Pb]", "[Pb2+]", "[Pb+", "[Pt]",
    "[Sc]", "[Si]", "[Si+", "[SiH]", "[Sn]", "[W]"]

  // ---------------------------------------------------------------------
  // String checks
  // ---------------------------------------------------------------------

  /** Python's `c in s` for a one-character string is character
      membership. */
  lemma CharSubstring(c: char, s: string)
    ensures IsSubstring([c], s) <==> c in s
  {
    if c in s {
      var i :| 0 <= i < |s| && s[i] == c;
      assert [c] <= s[i..];
    }
    if IsSubstring([c], s) {
      var i :| 0 <= i <= |s| && [c] <= s[i..];
      assert s[i..][0] == c;
    }
  }

  /** check_smiles_against_exludestring: a structure passes exactly when it
      has no "." (no salt or mixture). */
  function CheckSmilesAgainstExcludestring(smiles: string): (ok: bool)
    ensures ok <==> '.' !in smiles
  {
    CharSubstring('.', smiles);
    !IsSubstring(ExcludeString[0], smiles)
  }

  /** The other entries of the exclusion list are not consulted: a silver
      compound passes, a mixture does not. */
  lemma OnlySeparatorIsExcluded()
    ensures "[Ag]" in ExcludeString && CheckSmilesAgainstExcludestring("[Ag]C")
    ensures !CheckSmilesAgainstExcludestring("CC.O")
  {
    assert ExcludeString[1] == "[Ag]";
    assert "CC.O"[2] == '.';
  }

  /** `s.split("(")[0]`: the text before the first "(". */
  function BeforeParen(s: string): (r: string)
    ensures r <= s && '(' !in r
    ensures |r| < |s| ==> s[|r|] == '('
  {
    if s == [] || s[0] == '(' then []
    else [s[0]] + BeforeParen(s[1..])
  }

  /** `s.replace(" ", "")` */
  function RemoveSpaces(s: string): (r: string)
    ensures |r| <= |s|
    ensures forall c :: c in r <==> c in s && c != ' '
  {
    if s == [] then []
    else (if s[0] == ' ' then [] else [s[0]]) + RemoveSpaces(s[1..])
  }

  /** The element of a composition entry such as "C (44.34%)". */
  function ElementOf(entry: string): string {
    RemoveSpaces(BeforeParen(entry))
  }

  /** The text before "(" in `a + "(" + rest` is `a`, when `a` has no "(". */
  lemma {:induction false} BeforeParenStops(a: string, rest: string)
    requires '(' !in a
    ensures BeforeParen(a + "(" + rest) == a
    decreases |a|
  {
    var s := a + "(" + rest;
    if a == [] {
      assert s[0] == '(';
    } else {
      assert s[0] == a[0] && s[1..] == a[1..] + "(" + rest;
      BeforeParenStops(a[1..], rest);
    }
  }

  /** Removing the spaces of `a + " "` gives `a`, when `a` has no space. */
  lemma {:induction false} RemoveSpacesDropsTrailing(a: string)
    requires ' ' !in a
    ensures RemoveSpaces(a + " ") == a
    decreases |a|
  {
    var s := a + " ";
    if a == [] {
      assert s == " " && s[1..] == [];
    } else {
      assert s[0] == a[0] && s[1..] == a[1..] + " ";
      RemoveSpacesDropsTrailing(a[1..]);
    }
  }

  /** The element of an entry "<symbol> (<percent>" is the symbol itself,
      so carbon is recognised only as the whole symbol: "C" counts, "Cl"
      and "Ca" do not. */
  lemma ElementOfEntry(symbol: string, percent: string)
    requires '(' !in symbol && ' ' !in symbol
    ensures ElementOf(symbol + " (" + percent) == symbol
    ensures ElementOf(symbol + " (" + percent) == "C" <==> symbol == "C"
  {
    assert symbol + " (" + percent == (symbol + " ") + "(" + percent;
    BeforeParenStops(symbol + " ", percent);
    RemoveSpacesDropsTrailing(symbol);
  }

  /** The loop of check_for_carbon over the composition: true at the first
      entry whose element is C; an entry that is not a string has no
      `split`. */
  function CarbonScan(entries: seq<Json>): Result<bool>
    decreases |entries|
  {
    if entries == [] then Ok(false)
    else if !entries[0].JStr? then Raised(AttributeError)
    else if ElementOf(entries[0].s) == "C" then Ok(true)
    else CarbonScan(entries[1..])
  }

  /** For a composition of strings, the scan finds carbon exactly when
      some entry's element is "C". */
  lemma {:induction false} CarbonScanIff(entries: seq<Json>)
    requires forall i :: 0 <= i < |entries| ==> entries[i].JStr?
    ensures CarbonScan(entries) == Ok(exists i :: 0 <= i < |entries| && ElementOf(entries[i].s) == "C")
    decreases |entries|
  {
    if entries != [] {
      assert forall i :: 1 <= i < |entries| ==> entries[1..][i - 1] == entries[i];
      CarbonScanIff(entries[1..]);
      if ElementOf(entries[0].s) != "C" {
        assert (exists i :: 0 <= i < |entries| && ElementOf(entries[i].s) == "C")
          <==> (exists i :: 0 <= i < |entries[1..]| && ElementOf(entries[1..][i].s) == "C");
      }
    }
  }

  /** The same scan, as check_for_carbon's loop. */
  method ScanForCarbon(entries: seq<Json>) returns (r: Result<bool>)
    ensures r == CarbonScan(entries)
  {
    var k := 0;
    while k < |entries|
      invariant 0 <= k <= |entries|
      invariant CarbonScan(entries) == CarbonScan(entries[k..])
    {
      assert entries[k..][1..] == entries[k + 1..];
      if !entries[k].JStr? {
        return Raised(AttributeError);
      }
      if ElementOf(entries[k].s) == "C" {
        return Ok(true);
      }
      k := k + 1;
    }
    assert entries[k..] == [];
    return Ok(false);
  }

  // ---------------------------------------------------------------------
  // Carbon check through the Jchem elemental analysis
  // ---------------------------------------------------------------------

  /** The elemental-analysis POST for `smiles`. */
  function AnalysisPayload(smiles: string): Json {
    Jchem.RequestPayload(JStr(smiles), Jchem.Parameters(Jchem.DefaultPostData(Jchem.ElementalAnalysis), JNull))
  }

  /** The composition get_elemental_analysis reads: None when the key is
      missing. A request that got no answer leaves the initial '' as the
      object's results, which cannot be subscripted by a string. */
  function Composition(replies: seq<Reply>): Result<Json> {
    var answer := Jchem.JchemOutcome(replies, 3);
    var results := if answer.Some? then answer.value else JStr("");
    Jchem.CatchKeyError(Index(results, "composition"))
  }

  /** What check_for_carbon returns when the Jchem server answers with
      `replies`. */
  function CarbonOutcome(replies: seq<Reply>): Result<bool> {
    match Composition(replies)
    case Raised(e) => Raised(e)
    case Ok(composition) =>
      match Items(composition)
      case Raised(e) => Raised(e)
      case Ok(entries) => CarbonScan(entries)
  }

  /** With the Jchem server down the carbon check raises TypeError instead
      of answering False. */
  lemma CarbonCheckWithoutAnswerRaises(replies: seq<Reply>)
    requires forall j :: 0 <= j < 3 ==> !Jchem.JchemAccepts(ReplyAt(replies, j))
    ensures CarbonOutcome(replies) == Raised(TypeError)
  {
  }

  /** check_for_carbon: an elemental analysis of `smiles`, then the scan of
      its composition. */
  method CheckForCarbon(smiles: string, jchem: Backend) returns (r: Result<bool>)
    modifies jchem
    ensures r == CarbonOutcome(old(jchem.pending))
    ensures var n := AttemptsMade(old(jchem.pending), Jchem.JchemAccepts, 3);
      ResentOnly(jchem.sent, old(jchem.sent), AnalysisPayload(smiles), n)
      && jchem.pending == Drop(old(jchem.pending), n)
  {
    var analysis := new Jchem.JchemProperty(Jchem.ElementalAnalysis);
    var _ := analysis.MakeDataRequest(JStr(smiles), JNull, jchem);
    var composition := Jchem.CatchKeyError(Index(analysis.results, "composition"));
    if composition.Raised? {
      return Raised(composition.exc);
    }
    var entries := Items(composition.value);
    if entries.Raised? {
      return Raised(entries.exc);
    }
    r := ScanForCarbon(entries.value);
  }

  // ---------------------------------------------------------------------
  // Validity and standardizer calls
  // ---------------------------------------------------------------------

  function ValidityPost(smiles: string): Post {
    Post(ValidityEndpoint, JObj(map["smiles" := JStr(smiles)]))
  }

  /** is_valid_smiles on the reply: valid exactly when the decoded body is a
      dict whose `result` is the string "true" (a JSON true does not
      count). */
  function IsValidSmiles(reply: Reply): (r: Result<bool>)
    ensures r == Ok(true) <==>
      reply.Delivered? && reply.response.body.Some? && reply.response.body.value.JObj?
      && Lookup(reply.response.body.value.fields, "result") == JStr("true")
  {
    if reply.Unreachable? then Raised(RequestFailed)
    else if reply.response.body.None? then Raised(ValueError)
    else match Get(reply.response.body.value, "result")
      case Raised(e) => Raised(e)
      case Ok(result) => Ok(result == JStr("true"))
  }

  /** A standardizer POST: the structure and the actions to apply. */
  function StandardizerPost(structure: Json, actions: seq<string>): Post {
    Post(StandardizerEndpoint, JObj(map["structure" := structure,
      "actions" := JList(seq(|actions|, i requires 0 <= i < |actions| => JStr(actions[i])))]))
  }

  /** `response['results'][-1]` */
  function LastResult(response: Json): Result<Json> {
    match Index(response, "results")
    case Raised(e) => Raised(e)
    case Ok(results) => At(results, -1)
  }

  // ---------------------------------------------------------------------
  // filterSMILES
  // ---------------------------------------------------------------------

  const OrganicOnlyMessage := "CTS only accepts organic chemicals"
  const SaltMessage := "Chemical cannot be a salt or mixture"
  const MetalsMessage := "Chemical cannot contain metals"

  function Rejection(message: string): Json {
    JObj(map["error" := JStr(message)])
  }

  /** The checks of filterSMILES in order: the carbon check (skipped for a
      transformation product), the salt check, the validity service. None
      when all pass, otherwise the message of the first that fails. */
  function FilterChecks(smiles: string, isNode: bool, jchemReplies: seq<Reply>, web: Post -> Reply): Result<Option<string>> {
    match (if isNode then Ok(true) else CarbonOutcome(jchemReplies))
    case Raised(e) => Raised(e)
    case Ok(hasCarbon) =>
      if !hasCarbon then Ok(Some(OrganicOnlyMessage))
      else if !CheckSmilesAgainstExcludestring(smiles) then Ok(Some(SaltMessage))
      else match IsValidSmiles(web(ValidityPost(smiles)))
        case Raised(e) => Raised(e)
        case Ok(valid) => if valid then Ok(None) else Ok(Some(MetalsMessage))
  }

  /** The rejections come in the source's order: each message is given
      exactly when every earlier check passed and its own check failed. */
  lemma FilterRejectionOrder(smiles: string, isNode: bool, jchemReplies: seq<Reply>, web: Post -> Reply)
    ensures var checks := FilterChecks(smiles, isNode, jchemReplies, web);
      var carbonPasses := isNode || CarbonOutcome(jchemReplies) == Ok(true);
      (checks == Ok(Some(OrganicOnlyMessage)) <==> !isNode && CarbonOutcome(jchemReplies) == Ok(false))
      && (checks == Ok(Some(SaltMessage)) <==> carbonPasses && '.' in smiles)
      && (checks == Ok(Some(MetalsMessage)) <==>
            carbonPasses && '.' !in smiles && IsValidSmiles(web(ValidityPost(smiles))) == Ok(false))
      && (checks == Ok(None) <==>
            carbonPasses && '.' !in smiles && IsValidSmiles(web(ValidityPost(smiles))) == Ok(true))
  {
  }

  /** The tautomer request's parameters: the tautomerization defaults with
      calculationType MAJOR. */
  function TautomerPostData(): map<string, Json> {
    Jchem.DefaultPostData(Jchem.Tautomerization)["calculationType" := JStr("MAJOR")]
  }

  /** A POST of the major-tautomer request: any structure, with the
      tautomerization parameters asking for calculationType MAJOR. */
  predicate IsTautomerRequest(post: Json) {
    post.JObj? && "parameters" in post.fields
    && post.fields["parameters"] == JObj(Jchem.Parameters(TautomerPostData(), JNull))
  }

  /** `results['result']['structureData']['structure']` with a KeyError
      read as None. */
  function MajorTautomer(results: Json): Result<Json> {
    Jchem.CatchKeyError(
      match Index(results, "result")
      case Raised(e) => Raised(e)
      case Ok(result) =>
        match Index(result, "structureData")
        case Raised(e) => Raised(e)
        case Ok(data) => Index(data, "structure"))
  }

  /** The structure sent to the neutralize step: the major tautomer when
      one is present (truthy), otherwise the standardized structure. */
  function ChosenStructure(filtered: Json, tautReplies: seq<Reply>): Result<Json> {
    var answer := Jchem.JchemOutcome(tautReplies, 3);
    match MajorTautomer(if answer.Some? then answer.value else JStr(""))
    case Raised(e) => Raised(e)
    case Ok(major) => Ok(if Truthy(major) then major else filtered)
  }

  /** A major tautomer replaces the standardized structure exactly when
      it is present and truthy. A KeyError anywhere along
      `result`/`structureData`/`structure`, or a falsy structure, keeps the
      standardized structure; a non-dict answer, or none at all, raises
      TypeError. */
  lemma TautomerReplacesOnlyWhenPresent(filtered: Json, tautReplies: seq<Reply>)
    ensures var answer := Jchem.JchemOutcome(tautReplies, 3);
      answer.None? ==> ChosenStructure(filtered, tautReplies) == Raised(TypeError)
    ensures var answer := Jchem.JchemOutcome(tautReplies, 3);
      answer.Some? && !answer.value.JObj? ==> ChosenStructure(filtered, tautReplies) == Raised(TypeError)
    ensures var answer := Jchem.JchemOutcome(tautReplies, 3);
      answer.Some? && answer.value.JObj? && "result" !in answer.value.fields ==>
      ChosenStructure(filtered, tautReplies) == Ok(filtered)
    ensures var answer := Jchem.JchemOutcome(tautReplies, 3);
      answer.Some? && answer.value.JObj? && "result" in answer.value.fields ==>
      var result := answer.value.fields["result"];
      result.JObj? && "structureData" !in result.fields ==>
      ChosenStructure(filtered, tautReplies) == Ok(filtered)
    ensures var answer := Jchem.JchemOutcome(tautReplies, 3);
      answer.Some? && answer.value.JObj? && "result" in answer.value.fields ==>
      var result := answer.value.fields["result"];
      result.JObj? && "structureData" in result.fields ==>
      var data := result.fields["structureData"];
      data.JObj? && "structure" !in data.fields ==>
      ChosenStructure(filtered, tautReplies) == Ok(filtered)
    ensures var answer := Jchem.JchemOutcome(tautReplies, 3);
      answer.Some? && answer.value.JObj? && "result" in answer.value.fields ==>
      var result := answer.value.fields["result"];
      result.JObj? && "structureData" in result.fields ==>
      var data := result.fields["structureData"];
      data.JObj? && "structure" in data.fields ==>
      var structure := data.fields["structure"];
      ChosenStructure(filtered, tautReplies) == Ok(if Truthy(structure) then structure else filtered)
    ensures forall major :: ChosenStructure(filtered, tautReplies) == Ok(major) ==>
      major == filtered || (Truthy(major) && MajorTautomer(Jchem.JchemOutcome(tautReplies, 3).value) == Ok(major))
  {
  }

  /** The standardizing steps of filterSMILES, after the checks: the last
      result of removeExplicitH + transform, possibly replaced by the major
      tautomer, then the last result of neutralize. */
  function Standardize(smiles: string, web: Post -> Reply, tautReplies: seq<Reply>): Result<Json> {
    match Calculator.WebCallOutcome(web(StandardizerPost(JStr(smiles), ["removeExplicitH", "transform"])))
    case Raised(e) => Raised(e)
    case Ok(response) =>
      match LastResult(response)
      case Raised(e) => Raised(e)
      case Ok(filtered) =>
        match ChosenStructure(filtered, tautReplies)
        case Raised(e) => Raised(e)
        case Ok(chosen) =>
          match Calculator.WebCallOutcome(web(StandardizerPost(chosen, ["neutralize"])))
          case Raised(e) => Raised(e)
          case Ok(final) => LastResult(final)
  }

  /** The Jchem replies left for the tautomer request once the carbon check
      has used its attempts. */
  function AfterCarbon(isNode: bool, jchemReplies: seq<Reply>): seq<Reply> {
    if isNode then jchemReplies else Drop(jchemReplies, AttemptsMade(jchemReplies, Jchem.JchemAccepts, 3))
  }

  /** What filterSMILES returns: an `{error: message}` dict for a rejected
      structure, otherwise the standardized one. */
  function FilterOutcome(smiles: string, isNode: bool, jchemReplies: seq<Reply>, web: Post -> Reply): Result<Json> {
    match FilterChecks(smiles, isNode, jchemReplies, web)
    case Raised(e) => Raised(e)
    case Ok(Some(message)) => Ok(Rejection(message))
    case Ok(None) => Standardize(smiles, web, AfterCarbon(isNode, jchemReplies))
  }

  /** The checks of filterSMILES, asking the services as they go. */
  method RunChecks(smiles: string, isNode: bool, jchem: Backend, web: Oracle<Post, Reply>) returns (r: Result<Option<string>>)
    modifies jchem, web
    ensures r == FilterChecks(smiles, isNode, old(jchem.pending), web.answer)
    ensures jchem.pending == AfterCarbon(isNode, old(jchem.pending))
    ensures |jchem.sent| == |old(jchem.sent)| + (if isNode then 0 else AttemptsMade(old(jchem.pending), Jchem.JchemAccepts, 3))
    ensures old(web.asked) <= web.asked
    ensures forall i :: |old(web.asked)| <= i < |web.asked| ==> web.asked[i] == ValidityPost(smiles)
  {
    if !isNode {
      var hasCarbon := CheckForCarbon(smiles, jchem);
      if hasCarbon.Raised? {
        return Raised(hasCarbon.exc);
      }
      if !hasCarbon.value {
        return Ok(Some(OrganicOnlyMessage));
      }
    }
    if !CheckSmilesAgainstExcludestring(smiles) {
      return Ok(Some(SaltMessage));
    }
    var reply := web.Ask(ValidityPost(smiles));
    var valid := IsValidSmiles(reply);
    if valid.Raised? {
      return Raised(valid.exc);
    }
    if !valid.value {
      return Ok(Some(MetalsMessage));
    }
    return Ok(None);
  }

  /** The standardizing steps of filterSMILES, asking the services as they
      go. */
  method StandardizeSmiles(smiles: string, jchem: Backend, web: Oracle<Post, Reply>) returns (r: Result<Json>)
    modifies jchem, web
    ensures r == Standardize(smiles, web.answer, old(jchem.pending))
    ensures old(jchem.sent) <= jchem.sent
    ensures forall i :: |old(jchem.sent)| <= i < |jchem.sent| ==> IsTautomerRequest(jchem.sent[i])
  {
    ghost var tautReplies := jchem.pending;
    var reply := web.Ask(StandardizerPost(JStr(smiles), ["removeExplicitH", "transform"]));
    var response := Calculator.WebCallOutcome(reply);
    if response.Raised? {
      return Raised(response.exc);
    }
    var filtered := LastResult(response.value);
    if filtered.Raised? {
      return filtered;
    }
    var taut := new Jchem.JchemProperty(Jchem.Tautomerization);
    taut.postData := taut.postData["calculationType" := JStr("MAJOR")];
    var answer := taut.MakeDataRequest(filtered.value, JNull, jchem);
    assert answer == Jchem.JchemOutcome(tautReplies, 3);
    assert taut.results == if answer.Some? then answer.value else JStr("");
    var major := MajorTautomer(taut.results);
    if major.Raised? {
      assert ChosenStructure(filtered.value, tautReplies) == Raised(major.exc);
      return Raised(major.exc);
    }
    var structure := filtered.value;
    if Truthy(major.value) {
      structure := major.value;
    }
    assert ChosenStructure(filtered.value, tautReplies) == Ok(structure);
    reply := web.Ask(StandardizerPost(structure, ["neutralize"]));
    response := Calculator.WebCallOutcome(reply);
    if response.Raised? {
      return Raised(response.exc);
    }
    return LastResult(response.value);
  }

  /** filterSMILES: the checks, and the standardizing steps only when all of
      them pass. A rejected structure never reaches the standardizer or the
      tautomer request. */
  method FilterSmiles(smiles: string, isNode: bool, jchem: Backend, web: Oracle<Post, Reply>) returns (r: Result<Json>)
    modifies jchem, web
    ensures r == FilterOutcome(smiles, isNode, old(jchem.pending), web.answer)
    ensures FilterChecks(smiles, isNode, old(jchem.pending), web.answer) != Ok(None) ==>
      |jchem.sent| == |old(jchem.sent)| + (if isNode then 0 else AttemptsMade(old(jchem.pending), Jchem.JchemAccepts, 3))
      && old(web.asked) <= web.asked
      && forall i :: |old(web.asked)| <= i < |web.asked| ==> web.asked[i].endpoint == ValidityEndpoint
  {
    var checks := RunChecks(smiles, isNode, jchem, web);
    if checks.Raised? {
      return Raised(checks.exc);
    }
    if checks.value.Some? {
      return Ok(Rejection(checks.value.value));
    }
    r := StandardizeSmiles(smiles, jchem, web);
  }

  // ---------------------------------------------------------------------
  // Mass check
  // ---------------------------------------------------------------------

  /** getMass's POST for `chemical`. */
  function MassPost(chemical: string): Post {
    Post(MassEndpoint, JObj(map[
      "structures" := JList([JObj(map["structure" := JStr(chemical)])]),
      "display" := JObj(map[
        "include" := JList([JStr("structureData")]),
        "additionalFields" := JObj(map["mass" := JStr("chemicalTerms(mass)")]),
        "parameters" := JObj(map["structureData" := JStr("smiles")])])]))
  }

  /** `struct_mass < 1500 and struct_mass > 0`: the open window (0, 1500);
      comparing anything but a number (or bool) raises TypeError. */
  function MassInWindow(mass: Json): (r: Result<bool>)
    ensures mass.JNum? ==> r == Ok(0.0 < mass.x < 1500.0)
    ensures r.Raised? <==> !mass.JNum? && !mass.JBool?
  {
    match mass
    case JNum(x) => Ok(x < 1500.0 && x > 0.0)
    case JBool(b) => Ok((if b then 1.0 else 0.0) < 1500.0 && (if b then 1.0 else 0.0) > 0.0)
    case _ => Raised(TypeError)
  }

  /** Both ends of the window are excluded. */
  lemma MassWindowIsOpen()
    ensures MassInWindow(JNum(1500.0)) == Ok(false) && MassInWindow(JNum(0.0)) == Ok(false)
    ensures MassInWindow(JNum(1499.5)) == Ok(true) && MassInWindow(JNum(0.5)) == Ok(true)
  {
  }

  /** What checkMass returns for the mass service's answer: the mass is
      read from `json_obj['data'][0]['mass']`. */
  function CheckMassOutcome(chemical: string, web: Post -> Reply): Result<bool> {
    match Calculator.WebCallOutcome(web(MassPost(chemical)))
    case Raised(e) => Raised(e)
    case Ok(response) =>
      match Index(response, "data")
      case Raised(e) => Raised(e)
      case Ok(data) =>
        match At(data, 0)
        case Raised(e) => Raised(e)
        case Ok(first) =>
          match Index(first, "mass")
          case Raised(e) => Raised(e)
          case Ok(mass) => MassInWindow(mass)
  }

  /** An error answer from the mass service is wrapped, and reading a mass
      out of the wrapper raises: it is not taken as "too large". */
  lemma MassServiceErrorRaises(chemical: string, web: Post -> Reply, payload: map<string, Json>)
    requires web(MassPost(chemical)) == Delivered(Response(200, Some(JObj(payload))))
    requires "error" in payload
    ensures CheckMassOutcome(chemical, web).Raised?
  {
    var wrapped := Calculator.Wrap(JObj(payload));
    assert !Calculator.IsValidPayload(JObj(payload));
    assert wrapped.fields["data"] == JObj(payload);
  }

  /** checkMass */
  method CheckMass(chemical: string, web: Oracle<Post, Reply>) returns (r: Result<bool>)
    modifies web
    ensures r == CheckMassOutcome(chemical, web.answer)
    ensures web.asked == old(web.asked) + [MassPost(chemical)]
  {
    var reply := web.Ask(MassPost(chemical));
    var response := Calculator.WebCallOutcome(reply);
    if response.Raised? {
      return Raised(response.exc);
    }
    var data := Index(response.value, "data");
    if data.Raised? {
      return Raised(data.exc);
    }
    var first := At(data.value, 0);
    if first.Raised? {
      return Raised(first.exc);
    }
    var mass := Index(first.value, "mass");
    if mass.Raised? {
      return Raised(mass.exc);
    }
    r := MassInWindow(mass.value);
  }

  // ---------------------------------------------------------------------
  // parseSmilesByCalculator
  // ---------------------------------------------------------------------

  const TooLargeMessage := "structure too large"
  const MetalsOrChargesMessage := "cannot process metals or charges"

  /** Python's `str(x)`: a string is itself; the text of anything else is
      supplied by the caller. */
  function PyStr(x: Json, repr: Json -> string): string {
    if x.JStr? then x.s else repr(x)
  }

  /** singleFilter's POST: one standardizer action on a structure. */
  function SingleFilterPost(smiles: string, action: string): Post {
    StandardizerPost(JStr(smiles), [action])
  }

  /** `singleFilter(...)['results']` for one action. */
  function SingleFilterResults(smiles: string, action: string, web: Post -> Reply): Result<Json> {
    match Calculator.WebCallOutcome(web(SingleFilterPost(smiles, action)))
    case Raised(e) => Raised(e)
    case Ok(response) => Index(response, "results")
  }

  /** clearStereos then untransformSMILES, each keeping the text of its
      last result. */
  function StereoFree(structure: string, web: Post -> Reply, repr: Json -> string): Result<string> {
    match SingleFilterResults(structure, "clearStereo", web)
    case Raised(e) => Raised(e)
    case Ok(cleared) =>
      match At(cleared, -1)
      case Raised(e) => Raised(e)
      case Ok(last) =>
        match SingleFilterResults(PyStr(last, repr), "untransform", web)
        case Raised(e) => Raised(e)
        case Ok(untransformed) =>
          match At(untransformed, -1)
          case Raised(e) => Raised(e)
          case Ok(final) => Ok(PyStr(final, repr))
  }

  predicate IsStereoCleared(calculator: string) {
    calculator == "epi" || calculator == "sparc" || calculator == "measured"
  }

  predicate IsBracketChecked(calculator: string) {
    calculator == "epi" || calculator == "measured"
  }

  /** What parseSmilesByCalculator returns. A too-large structure raises
      `Exception({'data': "structure too large"})`, modelled as
      `Error(TooLargeMessage)`; any failure while filtering ends in
      `raise {dict}`, which Python 3 refuses with TypeError. */
  function ParseOutcome(structure: string, calculator: string, web: Post -> Reply, repr: Json -> string): Result<string> {
    match (if calculator != "chemaxon" then CheckMassOutcome(structure, web) else Ok(true))
    case Raised(e) => Raised(e)
    case Ok(light) =>
      if !light then Raised(Error(TooLargeMessage))
      else
        match (if IsStereoCleared(calculator) then StereoFree(structure, web, repr) else Ok(structure))
        case Raised(_) => Raised(TypeError)
        case Ok(filtered) =>
          if IsBracketChecked(calculator) && (IsSubstring("[", filtered) || IsSubstring("]", filtered)) then
            Raised(Error(MetalsOrChargesMessage))
          else Ok(filtered)
  }

  /** parseSmilesByCalculator */
  method ParseSmilesByCalculator(structure: string, calculator: string, web: Oracle<Post, Reply>, repr: Json -> string)
    returns (r: Result<string>)
    modifies web
    ensures r == ParseOutcome(structure, calculator, web.answer, repr)
    ensures calculator == "chemaxon" ==> web.asked == old(web.asked)
  {
    var filtered := structure;
    if calculator != "chemaxon" {
      var light := CheckMass(structure, web);
      if light.Raised? {
        return Raised(light.exc);
      }
      if !light.value {
        return Raised(Error(TooLargeMessage));
      }
    }
    if IsStereoCleared(calculator) {
      var cleared := StereoFreeSteps(structure, web, repr);
      if cleared.Raised? {
        return Raised(TypeError);
      }
      filtered := cleared.value;
    }
    if IsBracketChecked(calculator) {
      if IsSubstring("[", filtered) || IsSubstring("]", filtered) {
        return Raised(Error(MetalsOrChargesMessage));
      }
    }
    return Ok(filtered);
  }

  /** The try block of parseSmilesByCalculator: clearStereos, then
      untransformSMILES on the text of its last result. */
  method StereoFreeSteps(structure: string, web: Oracle<Post, Reply>, repr: Json -> string) returns (r: Result<string>)
    modifies web
    ensures r == StereoFree(structure, web.answer, repr)
  {
    var reply := web.Ask(SingleFilterPost(structure, "clearStereo"));
    var response := Calculator.WebCallOutcome(reply);
    if response.Raised? {
      return Raised(response.exc);
    }
    var cleared := Index(response.value, "results");
    if cleared.Raised? {
      return Raised(cleared.exc);
    }
    var last := At(cleared.value, -1);
    if last.Raised? {
      return Raised(last.exc);
    }
    var filtered := PyStr(last.value, repr);
    reply := web.Ask(SingleFilterPost(filtered, "untransform"));
    response := Calculator.WebCallOutcome(reply);
    if response.Raised? {
      return Raised(response.exc);
    }
    var untransformed := Index(response.value, "results");
    if untransformed.Raised? {
      return Raised(untransformed.exc);
    }
    var final := At(untransformed.value, -1);
    if final.Raised? {
      return Raised(final.exc);
    }
    return Ok(PyStr(final.value, repr));
  }

  /** chemaxon structures are returned as given, with no service asked. */
  lemma ChemaxonUnchanged(structure: string, web: Post -> Reply, repr: Json -> string)
    ensures ParseOutcome(structure, "chemaxon", web, repr) == Ok(structure)
  {
  }

  /** Every other calculator has its mass checked; a structure outside the
      window is refused as too large. */
  lemma TooLargeIsRefused(structure: string, calculator: string, web: Post -> Reply, repr: Json -> string)
    requires calculator != "chemaxon" && CheckMassOutcome(structure, web) == Ok(false)
    ensures ParseOutcome(structure, calculator, web, repr) == Raised(Error(TooLargeMessage))
  {
  }

  /** A calculator other than chemaxon, epi, sparc and measured gets its
      structure back unchanged once the mass check passes. */
  lemma OtherCalculatorsUnchanged(structure: string, calculator: string, web: Post -> Reply, repr: Json -> string)
    requires calculator != "chemaxon" && !IsStereoCleared(calculator)
    requires CheckMassOutcome(structure, web) == Ok(true)
    ensures ParseOutcome(structure, calculator, web, repr) == Ok(structure)
  {
  }

  /** An epi or measured result never holds a bracket, while sparc keeps the
      filtered structure, brackets and all. */
  lemma BracketsOnlyRejectedForEpiAndMeasured(structure: string, calculator: string, web: Post -> Reply, repr: Json -> string)
    ensures IsBracketChecked(calculator) && ParseOutcome(structure, calculator, web, repr).Ok? ==>
      var filtered := ParseOutcome(structure, calculator, web, repr).value;
      '[' !in filtered && ']' !in filtered
    ensures calculator == "sparc" && CheckMassOutcome(structure, web) == Ok(true) && StereoFree(structure, web, repr).Ok? ==>
      ParseOutcome(structure, calculator, web, repr) == StereoFree(structure, web, repr)
  {
    var r := ParseOutcome(structure, calculator, web, repr);
    if IsBracketChecked(calculator) && r.Ok? {
      CharSubstring('[', r.value);
      CharSubstring(']', r.value);
    }
  }
}
