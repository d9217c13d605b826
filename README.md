# cts_calcs broker core, modelled in Dafny

The cts_calcs package is the request broker of the Chemical Transformation
Simulator. It takes a property request for a chemical structure, sends it to
an external calculator service (Sparc or ChemAxon's Jchem web services), and
turns the service's JSON answer into the CTS data objects the front end shows.
Before any of that, a SMILES filter checks and standardises the user's
structure.

This project models the logic of that broker:

- `pyjson.dfy` (module `PyJson`) gives decoded JSON and the Python operations
  the source uses on it: subscripts, `.get`, negative indices, iteration,
  truthiness, `in` and `float()`. Each exception they can raise is a value of
  `Exc` inside a `Result`.
- `transport.dfy` (module `Transport`) holds a service's answers.
  - A `Backend` is a server seen by a retry loop. It keeps a queue of the
    replies it will give and a log of the payloads posted to it.
  - An `Oracle` answers each question with a fixed function and logs what
    it was asked.
  - `FirstStop` and `AttemptsMade` specify a bounded retry loop.
- `calculator.dfy` (module `Calculator`) models `calculator.py`. It covers the
  error check of a decoded answer, its wrapping in `web_call`, the chemical
  type selection, the lookups in the property map, and the melting-point
  fallback over measured, test and epi.
- `sparc.dfy` (module `Sparc`) models `calculator_sparc.py`. It covers the
  Sparc query and its calculations list, the retrying `request_logic`,
  response validation, the per-endpoint handling in `data_request_handler`,
  and the parsers for multi-property, pKa and logD answers.
- `jchem.dfy` (module `Jchem`) models `jchem_properties.py`. It covers the
  property-class table, the request parameters, the retry loop, the data
  getters of each class, `getJchemPropData`, and the speciation summary.
- `smilesfilter.dfy` (module `SmilesFilter`) models `smilesfilter.py`. It
  covers:
  - the salt check and the carbon check;
  - the ordered, short-circuiting `filterSMILES`;
  - the mass window;
  - the per-calculator `parseSmilesByCalculator`.

Each stateful operation is a method on a class or on a `Backend` or
`Oracle`. It is proved against a function of the inputs and the service's
replies. Lemmas then state what the source promises about that function.

## Model

| member | source | states |
|---|---|---|
| Calculator.HandleErrorMessages | cts_calcs/calculator.py:458-466 | the message is "Chemical cannot be standardized" exactly when errorCode equals 3, otherwise "Chemical not recognized" |
| Calculator.CheckResponseForErrors | cts_calcs/calculator.py:423-454 | valid iff the answer is a dict with none of errorMessage, errorCode and error as keys; valid iff no error message; a non-dict gets "Error processing calc results"; an error dict gets handle_error_messages' text |
| Calculator.Wrap | cts_calcs/calculator.py:486-498 | the wrapped answer always has `valid` set to the check's verdict; a valid answer keeps all its other keys unchanged; an invalid one becomes exactly {error, data: the answer, valid: False} |
| Calculator.WebCall | cts_calcs/calculator.py:484-498 | the loop over the keys of check_response_for_errors followed by the wrapping yields `Wrap` of the decoded answer |
| Calculator.GetChemicalType | cts_calcs/calculator.py:366-390 | a failed request gives {type: None}; an error answer gives {type: None, error}; otherwise `properties.type` when it is truthy, else the top-level `type` when that is truthy; a non-dict `properties` raises AttributeError |
| Calculator.GetUrl | cts_calcs/calculator.py:122-127 | a known prop gives the template filled with its urlKey; an unknown prop gives the "url key not found" text |
| Calculator.GetPropKey | cts_calcs/calculator.py:129-133 | a known prop gives its propKey; an unknown prop gives the "prop not found" text |
| Calculator.GetResultKey | cts_calcs/calculator.py:135-139 | a known prop gives its resultKey; an unknown prop gives the "result key not found" text |
| Calculator.LookupErrorsAreUnambiguous | cts_calcs/calculator.py:122-139 | when no table entry spells an error text, each error text is returned exactly for props missing from the map |
| Calculator.MeltingPointSources | cts_calcs/calculator.py:163-166 | measured and test come first; epi comes third exactly when the requester is not epi |
| Calculator.MeltingPointRequest | cts_calcs/calculator.py:155-170 | the request carries calc, prop melting_point, chemical and sessionid, plus method "hc" exactly when the requester is test |
| Calculator.RetargetRequest | cts_calcs/calculator.py:172-174 | the requests to two sources differ only in `calc`, so updating the one shared dict is the same as building each request fresh |
| Calculator.LastMeltingPointIsLast | cts_calcs/calculator.py:185-187 | the scan of a data list yields the data of the LAST melting_point entry, and leaves the running value unchanged when there is none |
| Calculator.Resolve | cts_calcs/calculator.py:172-201 | the first source whose value coerces to a float (or whose answer raises) decides, and no later source is asked; when none decides, all are asked and the result is None |
| Calculator.ResolveAt | cts_calcs/calculator.py:196-198 | any first deciding source is the one the fallback reports, with exactly the sources up to it asked |
| Calculator.ScanForMeltingPoint | cts_calcs/calculator.py:185-187 | the loop over the data objects computes the last-melting-point scan, raising at the first entry without prop or data |
| Calculator.ReadCandidate | cts_calcs/calculator.py:178-187 | test's `data` is taken as it is; for epi and measured a falsy `valid` resets the value to None, else the last melting-point entry is taken |
| Calculator.AskedOneMore | cts_calcs/calculator.py:172-176 | asking the next source extends the ordered log of requests by that source's request |
| Calculator.GetMeltingPoint | cts_calcs/calculator.py:149-204 | returns the fallback's outcome, and the handler was asked exactly the requests to the sources up to the deciding one, in order |
| Calculator.MeltingPointFromTestWhenEpiAsks | cts_calcs/calculator.py:163-198 | for an epi requester with an empty measured answer, test's "-187" gives -187.0 after two requests |
| Calculator.FallbackStopsAtFirstNumber | cts_calcs/calculator.py:178-198 | a measured value that does not coerce to a float falls through to test's numeric value, and epi is never asked |
| Sparc.ValidateResponse | cts_calcs/calculator_sparc.py:209-235 | accepts iff status 200, the body decodes to a dict, and a LOGD answer has a list under plotCoordinates; a non-dict body raises AttributeError |
| Sparc.SparcOutcome | cts_calcs/calculator_sparc.py:178-206 | the sentinel "calc server not found" is returned iff no attempt within the limit is accepted; otherwise the answer is a validated dict |
| Sparc.ExpectedCalculationsListed | cts_calcs/calculator_sparc.py:72-101 | the twelve calculations of a multi-property query, written out in the source's order, each with the solvents it needs: water for Henry's constant, solubility and activity, water then octanol for distribution, none otherwise |
| Sparc.SparcCalc.GetCalculations | cts_calcs/calculator_sparc.py:72-101 | the list built by appending calculations and solvents in place is the expected calculations list |
| Sparc.SparcCalc.GetSparcQuery | cts_calcs/calculator_sparc.py:37-49 | the multi-property query holds the object's conditions, the calculations list and the smiles |
| Sparc.SparcCalc.constructor | cts_calcs/calculator_sparc.py:10-35 | the smiles, melting point, pressure and temperature are the ones given; max_retries is 3 and results start empty |
| Sparc.SparcCalc.RequestLogic | cts_calcs/calculator_sparc.py:178-206 | the result and the stored results are the retry outcome; the payload was posted once per attempt made, and no more |
| Sparc.MappedResults | cts_calcs/calculator_sparc.py:251-261 | every result whose SPARC type is mapped yields its CTS prop name and data; every mapped entry comes from such a result |
| Sparc.MappedResultsConcat | cts_calcs/calculator_sparc.py:251-261 | the results are mapped in input order: mapping a + b gives the mapped results of a followed by those of b, or the first exception |
| Sparc.MappedResultsSingle | cts_calcs/calculator_sparc.py:252-261 | one result adds exactly one entry, its CTS name and data, when its type is mapped, and none otherwise |
| Sparc.EntriesCarryNames | cts_calcs/calculator_sparc.py:258-261 | `sparc_response` and `sparc_response_props` run in step: the i-th name is the "prop" of the i-th entry, and each entry has exactly the keys calc (always "sparc"), prop and data (its result's data) |
| Sparc.Missing | cts_calcs/calculator_sparc.py:263-264 | exactly the requested props that were not found and are neither ion_con nor kow_wph |
| Sparc.CollectMapped | cts_calcs/calculator_sparc.py:251-261 | the first loop of parseMultiPropResponse computes the mapped results together with the response and found-props lists |
| Sparc.AppendMissing | cts_calcs/calculator_sparc.py:263-270 | the second loop appends one "prop not found" entry per missing requested prop |
| Sparc.AfterNothing | cts_calcs/calculator_sparc.py:251-261 | prepending nothing leaves the mapped results unchanged |
| Sparc.AfterAfter | cts_calcs/calculator_sparc.py:251-261 | prepending found entries in two steps is the same as prepending them at once |
| Sparc.MultiPropCovers | cts_calcs/calculator_sparc.py:238-272 | every output entry is a sparc entry; the output starts with the mapped entries in order, and every later entry carries the data "prop not found"; every requested prop other than ion_con and kow_wph appears in the output |
| Sparc.SparcCalc.ParseMultiPropResponse | cts_calcs/calculator_sparc.py:238-272 | computes the multi-property parse: empty or non-list results raise; otherwise the found entries, then the missing ones |
| Sparc.AcidValues | cts_calcs/calculator_sparc.py:325-328 | holds the macroPka of exactly the Acid or Both items whose value is not -1000 |
| Sparc.BaseValues | cts_calcs/calculator_sparc.py:325-330 | holds the macroPka of exactly the Base items whose value is not -1000 |
| Sparc.AcidValuesAppend | cts_calcs/calculator_sparc.py:306-307 | the pKa list keeps the order of the items: the acid values of a + b are those of a followed by those of b |
| Sparc.BaseValuesAppend | cts_calcs/calculator_sparc.py:306-307 | the pKb list keeps the order of the items: the base values of a + b are those of a followed by those of b |
| Sparc.SparcCalc.GetPkaAndPkbFromResults | cts_calcs/calculator_sparc.py:321-332 | appends the item's macroPka to pKa for Acid or Both, and to pKb for Base, unless the value is -1000; a non-dict item raises AttributeError and appends nothing |
| Sparc.SparcCalc.GetPkaResults | cts_calcs/calculator_sparc.py:298-318 | the loop computes the pKa lists; any failure becomes the one "error parsing sparc request" exception |
| Sparc.PkaNoneIffNothingClassified | cts_calcs/calculator_sparc.py:309-311 | None is returned iff no item is an acid or base with a real value; no item is both |
| Sparc.LogDMissGivesNone | cts_calcs/calculator_sparc.py:369-372 | when no x equals the pH, getLogDForPH falls off the loop and returns None |
| Sparc.LogDFirstHit | cts_calcs/calculator_sparc.py:370-372 | the y of the first pair whose x equals the pH is returned |
| Sparc.LogDNoInterpolation | cts_calcs/calculator_sparc.py:370-372 | a pH between two grid points matches neither, so the result is None |
| Sparc.FillDefaults | cts_calcs/calculator_sparc.py:106-109 | the request keeps its own values and gains each default key it lacks |
| Sparc.FillDefaultsIdempotent | cts_calcs/calculator_sparc.py:106-109 | filling defaults twice is the same as filling them once |
| Sparc.FilledRequestRetargets | cts_calcs/calculator_sparc.py:106-109 | filling defaults in place and then changing one key gives the same filled request as changing that key on a fresh request |
| Sparc.FillRequestDefaults | cts_calcs/calculator_sparc.py:106-109 | the request dict updated in place equals the filled request |
| Sparc.CopyResponse | cts_calcs/calculator_sparc.py:132-135 | the response starts as the request without `nodes` |
| Sparc.SentinelLacksCalculationResults | cts_calcs/calculator_sparc.py:159 | the "calc server not found" sentinel does not contain "calculationResults" |
| Sparc.SparcCalc.HandlePka | cts_calcs/calculator_sparc.py:141-145 | posts the full-speciation payload once per attempt and answers with the pKa results, or "request timed out" when parsing fails |
| Sparc.SparcCalc.HandleLogD | cts_calcs/calculator_sparc.py:148-151 | posts the logD payload once per attempt and answers with the logD at the request's pH, or "request timed out" |
| Sparc.SparcCalc.HandleMultiProperty | cts_calcs/calculator_sparc.py:155-161 | posts the multi-property query once per attempt; parses an answer holding calculationResults, and otherwise returns None |
| Sparc.SparcCalc.DataRequestHandler | cts_calcs/calculator_sparc.py:104-169 | fills the request's defaults in place, dispatches on prop (ion_con, kow_wph, anything else) and posts only that endpoint's payload |
| Sparc.SparcCalc.UnreachableServer | cts_calcs/calculator_sparc.py:139-169 | with the server unreachable, pKa and logD give "request timed out", while multi-property returns None |
| Sparc.SparcCalc.PkaResponseEchoesRequest | cts_calcs/calculator_sparc.py:132-145 | a pKa answer carries the request's other keys, request_post, method None, the pKa data and prop ion_con |
| Sparc.PkaLists.constructor | cts_calcs/calculator_sparc.py:305 | the pKa and pKb lists start empty |
| Jchem.GetPropObject | cts_calcs/jchem_properties.py:59-82 | the only exception is ValueError |
| Jchem.GetPropObjectFollowsTable | cts_calcs/jchem_properties.py:63-82 | a prop selects a class iff it is one of that class's names in the table, and ValueError is raised iff it names no class |
| Jchem.Parameters | cts_calcs/jchem_properties.py:88-102 | result-display is always merged in; method is added iff it is truthy; every other key keeps its value |
| Jchem.ValidateResponse | cts_calcs/jchem_properties.py:124-133 | accepts iff the status is 200 |
| Jchem.JchemAcceptsMoreThanSparc | cts_calcs/jchem_properties.py:124-133 | every reply Sparc accepts is accepted by Jchem, and an undecodable 200 reply is accepted only by Jchem |
| Jchem.JchemOutcome | cts_calcs/jchem_properties.py:104-120 | None when no attempt within the limit succeeds; any answer is the body of a 200 reply among the first `limit` replies |
| Jchem.UndecodableAnswerEndsLoop | cts_calcs/jchem_properties.py:110-117 | a 200 reply that does not decode ends the loop after one attempt with None |
| Jchem.ThreeFailuresGiveNone | cts_calcs/jchem_properties.py:104-120 | three failed attempts give None even when a good answer comes fourth |
| Jchem.PostUntilValid | cts_calcs/jchem_properties.py:104-120 | the loop's result is the retry outcome; the payload was posted once per attempt made, and those replies were consumed |
| Jchem.CatchKeyError | cts_calcs/jchem_properties.py:603-607 | a KeyError becomes None; every other exception propagates unchanged and a value passes through |
| Jchem.JchemProperty.constructor | cts_calcs/jchem_properties.py:15-28 | max_retries is 3, postData is the class's table and results start as '' |
| Jchem.JchemProperty.MakeDataRequest | cts_calcs/jchem_properties.py:86-120 | postData gains the parameters; the result is the retry outcome; results are set only on success; the request was posted once per attempt |
| Jchem.ListUnder | cts_calcs/jchem_properties.py:205-229 | an absent key gives [], a list gives its elements, and results that are None raise TypeError |
| Jchem.CollectUnder | cts_calcs/jchem_properties.py:209-213 | the copy loop computes ListUnder |
| Jchem.JchemProperty.GetMostAcidicPka | cts_calcs/jchem_properties.py:205-216 | returns the mostAcidic list, or [] when the key is absent |
| Jchem.JchemProperty.GetMostBasicPka | cts_calcs/jchem_properties.py:218-229 | returns the mostBasic list, or [] when the key is absent |
| Jchem.PkaDataNoneIffNoValues | cts_calcs/jchem_properties.py:296-305 | get_data is None iff both lists are empty, and otherwise {pKa, pKb} |
| Jchem.PkaDataOnNoAnswer | cts_calcs/jchem_properties.py:210 | with no answer (results None) the pKa getter raises TypeError |
| Jchem.GetPHDependentSolubility | cts_calcs/jchem_properties.py:474-489 | the loop over the solubility table computes the pH-dependent solubility |
| Jchem.SolubilityFirstHit | cts_calcs/jchem_properties.py:481-485 | the solubility of the first entry whose pH equals the requested pH is returned |
| Jchem.SolubilityMissGivesNA | cts_calcs/jchem_properties.py:486 | "N/A" is returned when no entry's pH matches |
| Jchem.SolubilityMissingTableGivesNone | cts_calcs/jchem_properties.py:487-489 | a missing pHDependentSolubility table gives None |
| Jchem.Times1000 | cts_calcs/jchem_properties.py:505-508 | multiplying by 1000.0 succeeds iff the value is a number (or bool), and scales a number by 1000 |
| Jchem.SolubilityDataBranches | cts_calcs/jchem_properties.py:502-513 | water_sol gives the intrinsic solubility, other props give None, and "N/A" or None under water_sol_ph raise TypeError |
| Jchem.LogDMissIsUnbound | cts_calcs/jchem_properties.py:572-576 | when no pH matches, `value` is never bound and getLogD raises UnboundLocalError |
| Jchem.JchemProperty.GetData | cts_calcs/jchem_properties.py:287-305 | dispatches to the get_data of the object's class; the classes without one raise AttributeError |
| Jchem.GetJchemPropData | cts_calcs/jchem_properties.py:33-54 | computes the CTS data object from the replies; an unknown prop raises before anything is posted |
| Jchem.JchemPropDataShape | cts_calcs/jchem_properties.py:43-54 | a result is {calc: chemaxon, prop, data}, with method iff it is truthy; an unknown prop raises ValueError |
| Jchem.SpeciesEntries | cts_calcs/jchem_properties.py:164-182 | each kind of property object adds exactly its own summary keys |
| Jchem.GetSpeciationResults | cts_calcs/jchem_properties.py:152-184 | the loop over the objects computes the speciation summary |
| Jchem.PrefixRaisedStaysRaised | cts_calcs/jchem_properties.py:159-182 | a getter that raises ends the summary with that exception |
| Jchem.SpeciationKeys | cts_calcs/jchem_properties.py:158-184 | the summary holds exactly the output keys of the objects present, skipping None |
| SmilesFilter.CheckSmilesAgainstExcludestring | cts_calcs/smilesfilter.py:69-79 | a structure passes iff it contains no "." |
| SmilesFilter.OnlySeparatorIsExcluded | cts_calcs/smilesfilter.py:75-79 | the other exclusion entries are not consulted: "[Ag]C" passes, while "CC.O" fails |
| SmilesFilter.BeforeParen | cts_calcs/smilesfilter.py:61 | the result is the prefix of the entry up to its first "(" |
| SmilesFilter.RemoveSpaces | cts_calcs/smilesfilter.py:61 | removes exactly the spaces |
| SmilesFilter.BeforeParenStops | cts_calcs/smilesfilter.py:61 | the text before "(" in a + "(" + rest is a, when a has no "(" |
| SmilesFilter.RemoveSpacesDropsTrailing | cts_calcs/smilesfilter.py:61 | removing the spaces of a + " " gives a, when a has no space |
| SmilesFilter.ElementOfEntry | cts_calcs/smilesfilter.py:60-62 | the element read from an entry "<symbol> (<percent>" is the symbol itself, so the entry names carbon exactly when the symbol is "C" ("Cl" and "Ca" do not) |
| SmilesFilter.CarbonScanIff | cts_calcs/smilesfilter.py:59-65 | for a composition of strings, carbon is found iff some entry's text before "(", spaces removed, is exactly "C" |
| SmilesFilter.ScanForCarbon | cts_calcs/smilesfilter.py:59-65 | the loop computes the carbon scan; a non-string entry raises AttributeError |
| SmilesFilter.CarbonCheckWithoutAnswerRaises | cts_calcs/smilesfilter.py:54-59 | with no Jchem answer the results stay '' and the carbon check raises TypeError rather than answering False |
| SmilesFilter.CheckForCarbon | cts_calcs/smilesfilter.py:46-65 | the result is the carbon check on the elemental analysis; the analysis was posted once per attempt made |
| SmilesFilter.IsValidSmiles | cts_calcs/smilesfilter.py:32-42 | valid iff the decoded answer is a dict whose `result` is the string "true" |
| SmilesFilter.FilterRejectionOrder | cts_calcs/smilesfilter.py:110-121 | the organic, salt and metals rejections each happen iff all earlier checks pass and their own check fails; the carbon check is skipped for a node |
| SmilesFilter.TautomerReplacesOnlyWhenPresent | cts_calcs/smilesfilter.py:143-152 | for every tautomer answer: a KeyError at result, structureData or structure keeps the standardized structure; a present structure replaces it exactly when it is truthy; a non-dict answer or no answer raises TypeError; the chosen structure is always either the standardized one or the truthy major tautomer |
| SmilesFilter.RunChecks | cts_calcs/smilesfilter.py:110-121 | the checks' outcome; Jchem is asked only by the carbon check, and the web only for validity |
| SmilesFilter.StandardizeSmiles | cts_calcs/smilesfilter.py:125-165 | computes the standardizing steps; every Jchem post is a MAJOR tautomer request |
| SmilesFilter.FilterSmiles | cts_calcs/smilesfilter.py:102-165 | returns the filter outcome; a rejected structure never reaches the standardizer or the tautomer request |
| SmilesFilter.MassInWindow | cts_calcs/smilesfilter.py:181-184 | a number passes iff 0 < mass < 1500; a value that is neither a number nor a bool raises TypeError |
| SmilesFilter.MassWindowIsOpen | cts_calcs/smilesfilter.py:181-184 | both 0 and 1500 are rejected, while values just inside the window pass |
| SmilesFilter.MassServiceErrorRaises | cts_calcs/smilesfilter.py:175-179 | an error answer from the mass service is wrapped by web_call, and reading a mass from it raises |
| SmilesFilter.CheckMass | cts_calcs/smilesfilter.py:169-184 | computes the mass check with exactly one request to the mass service |
| SmilesFilter.StereoFreeSteps | cts_calcs/smilesfilter.py:244-250 | clearStereo then untransform, each keeping the text of the last result |
| SmilesFilter.ParseSmilesByCalculator | cts_calcs/smilesfilter.py:230-262 | computes the per-calculator filter; chemaxon makes no request |
| SmilesFilter.ChemaxonUnchanged | cts_calcs/smilesfilter.py:236-237 | a chemaxon structure is returned unchanged |
| SmilesFilter.TooLargeIsRefused | cts_calcs/smilesfilter.py:236-240 | every calculator but chemaxon refuses a structure outside the mass window with "structure too large" |
| SmilesFilter.OtherCalculatorsUnchanged | cts_calcs/smilesfilter.py:234-262 | a calculator other than epi, sparc and measured gets its input back once the mass check passes |
| SmilesFilter.BracketsOnlyRejectedForEpiAndMeasured | cts_calcs/smilesfilter.py:256-260 | an epi or measured result never contains a bracket, while sparc returns the filtered structure even when it has brackets |

## Left out

- HTTP is not modelled. A reply is `Unreachable` (the request raised) or a
  status code with a decoded body (`None` when it does not decode). JSON
  encoding, headers, timeouts, `verify=False` and the server URLs, which
  come from environment variables, are left out.
- Logging, `print` and `pretty_print_POST` only write text and are left
  out.
- `gen_jid` reads the clock and is left out. So are the HTML and image
  builders (`nodeWrapper`, `imgTmpl2`, `popupBuilder`, `smilesToImage`) and
  the requests for details, names and SMILES conversion (`getChemDetails`,
  `convertToSMILES`, `get_smiles_from_name`, `getStructInfo`).
- Iterating a non-empty JSON object yields its keys in insertion order. A
  map has no order, so `Items` raises TypeError there instead. Where the
  loop body subscripts each item with a string key, Python raises that same
  TypeError on the key, and the model is exact. This holds for the
  melting-point scan (cts_calcs/calculator.py:190), the sparc pKa items
  (cts_calcs/calculator_sparc.py:306), the solubility scan
  (cts_calcs/jchem_properties.py:481) and the jchem logD scan
  (cts_calcs/jchem_properties.py:572). These loops differ when given a
  non-empty object:
  - the requested props (cts_calcs/calculator_sparc.py:263): Python adds a
    "prop not found" entry per key the results lack; the model raises, and
    the handler answers with the timed-out response;
  - the sparc logD plot (cts_calcs/calculator_sparc.py:370): Python returns
    None when every key is non-empty; the model raises TypeError, and the
    handler answers with the timed-out response;
  - mostAcidic and mostBasic (cts_calcs/jchem_properties.py:211 and 224):
    Python returns the list of keys; the model raises TypeError;
  - the carbon check (cts_calcs/smilesfilter.py:59): Python reads an
    element from each key; the model raises TypeError.
- Numbers are exact reals, so float rounding is not modelled.
  - `float()` of a string is a parser supplied by the caller.
  - `round(ph, 1)` in the Jchem logD getter is a function supplied by the
    caller.
  - `Jchem.Times1000` multiplies exactly.
- `str()` of a non-string standardizer result in `parseSmilesByCalculator`
  is a function supplied by the caller (`PyStr`).
- The chemistry services are oracles. The SMILES filter's web services are
  one `Oracle` keyed by endpoint and payload. The elemental analysis and the
  tautomer request share one Jchem `Backend` queue, where the source uses
  two endpoints of the same server.
- Calculator.GetMeltingPoint: the calculator's `data_request_handler` is an
  oracle from request to answer, assumed not to change its argument. The
  source passes one shared dict to every source, changing only `calc` in
  between (`RetargetRequest` proves those updates agree with fresh
  requests). A handler that writes into the dict would leak its changes to
  the later sources. The sparc handler does this: it fills the default
  request keys in place (cts_calcs/calculator_sparc.py:106-109). For sparc
  this is harmless, since `Sparc.FilledRequestRetargets` proves that a
  filled and retargeted dict fills to the same request as a fresh one.
- Sparc.SparcCalc.DataRequestHandler: the request dict is the only thing
  updated in place. `request_post` holds a snapshot of it, whereas in the
  source it aliases the live dict.
- Sparc.ExpectedCalculationsListed: calculation and solvent dicts are the
  datatypes `Calc` and `Solvent`, rendered as JSON only for the query.
  Their repeated pressure, melting point and temperature come from the
  object.
- Jchem.JchemProperty.MakeDataRequest: the loop uses the property object's
  own `max_retries`. In the source it is the caller's, and both are always 3.
- Jchem.GetSpeciationResults: the getters that build images or ask the
  structure service (`getParent`, `getMicrospecies`, the chart-data
  getters, `getMajorMicrospecies`, `getTautomers`, `getStereoisomers`) are
  an oracle. The dict of property objects is a sequence of (key, results)
  pairs in the dict's order, with a missing object as None.
- `Solubility.convertLogToMGPERL` is never called from the modelled code
  and is left out.
- `calcs_metadata.py` only holds descriptive text and is not part of this
  model. Neither is the package's test script.
- SmilesFilter.ParseSmilesByCalculator: `raise Exception({'data': ...})` is
  modelled as `Error(message)`. `raise {dict}` cannot be raised in Python 3
  and is modelled as the TypeError it produces.
