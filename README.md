# bowtie command protocol and result model

A Dafny model of `bowtie/_commands.py`. This is the protocol and result layer
of bowtie, a harness that checks JSON Schema implementations for conformance.
It covers four parts:

- **Test cases.** A `TestCase` holds a schema and its ordered `Test`s; each test
  may carry an expected verdict. `from_dict` builds a case from fixture data.
  `without_expected_results` builds the wire view sent to an implementation
  under test: every test's `valid` key is dropped, and so are `None` comments
  and a `None` registry.
- **Command codec.** Each command (`start`, `dialect`, `run`, `stop`) sends
  `{cmd: name, ...fields}`. It has a request schema
  `https://bowtie.report/io-schema/<name>/` and a response schema at
  `<uri>response/`. A response is parsed, then validated, then built into the
  command's response value. `Started` accepts only `ready` true and
  `version` 1.
- **Result taxonomy and decoding.** A run response becomes `CaseErrored` when
  `errored` is truthy, else `CaseSkipped` when `skipped` is truthy, else a
  `CaseResult`. A `CaseResult` carries the caller's expected verdicts. A single
  test result becomes `SkippedTest` when `skipped` is truthy, else
  `ErroredTest` when `errored` is truthy, else `TestResult(valid)`. The model
  includes the `reason` fallbacks and `CaseErrored.uncaught`.
- **Comparator.** `compare` zips results with expected verdicts. A position
  fails iff its result is plain (neither skipped nor errored), its expected
  verdict is known, and the two verdicts differ. `failed` is true iff some
  position fails. `CaseErrored`, `CaseSkipped` and `Empty` never fail.
  `CaseErrored` and `Empty` are errored.

Every data class in the source is a frozen value, so the model is made of
datatypes, total functions over them, and lemmas. Files and modules:

- `json.dfy` (`Json`): JSON values, plus Python truthiness (`Truthy`, `Flag`).
- `kwargs.dfy` (`Kwargs`): the error taxonomy, `Result`, and the binding of
  `Cls(**mapping)` keyword arguments (`Binds`).
- `test_cases.dfy` (`TestCases`): `Test`, `TestCase`, `from_dict` and
  `without_expected_results`.
- `results.dfy` (`Results`): test and case results, their decoding, `compare`,
  `failed` and `report`.
- `commands.dfy` (`Commands`): the commands, schema URIs, `to_request`,
  `from_response`, `Started` and `StartedDialect`.

Behaviour of the code worth knowing when reading the model:

- `_case_result` checks `errored` before `skipped` (`_commands.py:168-177`), so
  a run response with both flags set decodes to `CaseErrored`
  (`Results.BothFlagsDecodeErrored`).
- `TestResult.from_dict` checks `skipped` first and hands the rest to
  `SkippedTest`, which has no `errored` keyword, so a single test result with
  both flags set fails to decode (`Results.BothTestFlagsRejected`).
- `compare` uses `zip`, which stops at the shorter of the results and the
  expected verdicts; nothing checks that their lengths agree
  (`Results.ZipTruncates`).
- `CaseErrored.report` calls `reporter.errored` (`_commands.py:297`).

## Model

| member | source | states |
|---|---|---|
| TestCases.TestFromDict | bowtie/_commands.py:24-29 | `Test(**d)` succeeds iff `d` is an object that binds `description` and `instance` (required) and `comment` and `valid` (optional) with the declared types; the test then holds exactly those values |
| TestCases.TestsFromDicts | bowtie/_commands.py:46 | the list comprehension succeeds iff every entry builds, and then it gives one test per entry, in order |
| TestCases.TestCaseFromDict | bowtie/_commands.py:40-47 | the tests are built first, so a test that does not build gives its own error even when the keyword arguments are also bad; with the tests built, arguments that do not bind give a TypeError; the case is built iff they all build and the remaining keyword arguments bind with the declared types; the case holds exactly the given description, schema, comment, registry and tests |
| TestCases.TestRoundTrip | bowtie/_commands.py:24-29 | a fixture entry that spells out every field of a test builds that test back |
| TestCases.WithoutExpectedResults | bowtie/_commands.py:49-67 | the wire view has keys `tests`, `description` and `schema`, plus `comment` and `registry` exactly when they are not None; `tests` has one entry per test, in order; no entry has `valid`; an entry has `comment` iff that test's comment is not None |
| TestCases.UpdateKeepsTests | bowtie/_commands.py:60-66 | the fields the update adds never include `tests`, so the stripped list is never overwritten |
| TestCases.WireTestRoundTrip | bowtie/_commands.py:50-58 | reading one wire test back gives the original test with only its expected verdict forgotten |
| TestCases.WireTestsRoundTrip | bowtie/_commands.py:50-58 | reading the wire test list back gives every test, in order, with only its expected verdict forgotten |
| TestCases.WithoutExpectedResultsRoundTrip | bowtie/_commands.py:40-67 | building a case from its own wire view gives the same case with every expected verdict set to None; stripping loses nothing else |
| Commands.UriInjective | bowtie/_commands.py:107 | distinct command names give distinct schema URIs |
| Commands.SchemasDistinct | bowtie/_commands.py:107-109 | no two command kinds share a request schema or a response schema, and no request schema is any kind's response schema |
| Commands.Request | bowtie/_commands.py:116 | the request has exactly the command's fields plus `cmd`, `cmd` is the command's name, and no field is renamed or changed |
| Commands.ToRequest | bowtie/_commands.py:112-118 | the request is returned iff the validator accepts it against `{"$ref": <uri>}`; otherwise the result is a schema error for that schema |
| Commands.RequestRoundTrip | bowtie/_commands.py:116 | a reader of requests recovers the exact command (kind and fields) from its request |
| Commands.StartedFromKwargs | bowtie/_commands.py:70-84 | keywords other than exactly `implementation`, `ready` and `version` give a TypeError; a Started value exists iff the keywords bind, the implementation is an object, `ready` is JSON `true` and `version` is JSON `1`, holding the given implementation; when the keywords bind, `ready` false gives ImplementationNotReady and, when ready, any version other than 1 gives VersionMismatch(expected 1, got version) |
| Commands.FromResponse | bowtie/_commands.py:120-130 | bytes the JSON decoder rejects give a protocol error whatever the validator says; a parsed instance that the validator refuses against `<uri>response/` gives a schema error; a validated instance gives exactly what the command's response callable builds from it (`Commands.Construct`), so nothing is built before validation |
| Commands.Construct | bowtie/_commands.py:130 | (also lines 140, 148-158, 349, 355) a non-object cannot be spread as keywords; start builds Started and passes on its error; dialect builds `StartedDialect(ok)` iff the object is exactly `{ok: <bool>}`, else a TypeError for other keys; run always gives the case builder of the object; stop succeeds iff the object is empty, else a TypeError |
| Commands.StartHandshake | bowtie/_commands.py:70-84 | a validated start response yields Started iff ready and version 1; readiness is checked before the version |
| Commands.DialectAcknowledged | bowtie/_commands.py:148-158 | a validated `{"ok": true}` dialect response decodes to the `StartedDialect.OK` sentinel |
| Commands.DialectRefused | bowtie/_commands.py:148-158 | a validated `{"ok": false}` dialect response decodes to a StartedDialect that is not the `OK` sentinel |
| Commands.RunResponseRoundTrip | bowtie/_commands.py:349-352 | every case outcome an implementation can send decodes back through the run command; a CaseResult gets the caller's expected verdicts |
| Commands.RunRequestHidesExpected | bowtie/_commands.py:49-67 | the run request for any case carries, under `case`, one test entry per test and none with a `valid` key |
| Results.AnyTestResult.SkipReason | bowtie/_commands.py:212-218 | the reason is the message when given, else the issue URL when given, else `"skipped"` |
| Results.AnyTestResult.ErrorReason | bowtie/_commands.py:228-233 | the reason is always truthy: the context's message when it is truthy, else `"Encountered an error."` |
| Results.TestResultFromDict | bowtie/_commands.py:192-201 | `skipped` is checked before `errored`; a truthy `skipped` gives SkippedTest iff the rest binds `message` and `issue_url`, holding exactly those (None when absent), and an error when `errored` is also present; else a truthy `errored` gives ErroredTest iff the rest binds only `context`, holding that context or `{}` when absent; else the result is `TestResult(valid)`, and a missing `valid` is a KeyError |
| Results.ResultsFromDicts | bowtie/_commands.py:256 | the results list decodes iff every entry decodes, one result per entry, in order |
| Results.TestResultRoundTrip | bowtie/_commands.py:185-233 | every per-test result an implementation can send decodes to itself |
| Results.ResultsRoundTrip | bowtie/_commands.py:256 | a wire results list decodes, in order, to the results it encodes |
| Results.BothTestFlagsRejected | bowtie/_commands.py:197-198 | a test result with both `skipped` and `errored` set does not decode, because SkippedTest has no `errored` keyword |
| Results.CaseOutcome.Report | bowtie/_commands.py:265-266 | (also lines 296-297, 330-331, 345-346) each outcome calls exactly one reporter method: CaseResult calls `got_results`, CaseErrored calls `errored`, CaseSkipped calls `skipped`, Empty calls `no_response` with its implementation |
| Results.Uncaught | bowtie/_commands.py:299-311 | the uncaught factory gives a CaseErrored with `caught` false and the given context; it is errored, not failed, and is reported through `errored` |
| Results.Compare | bowtie/_commands.py:268-278 | one pair per zipped position, min(len results, len expected) pairs in order; each pair carries its result and the failure rule applied to that position |
| Results.FailedPairIff | bowtie/_commands.py:272-277 | a position fails iff its result is a plain TestResult and its expected verdict is known and the opposite of the result |
| Results.FailedIff | bowtie/_commands.py:261-263 | `failed` is true iff the outcome is a CaseResult and some zipped position fails |
| Results.OutcomeFlags | bowtie/_commands.py:287-288 | (also lines 320-321, 340-341) errored outcomes (CaseErrored, Empty) never fail; a skipped case is neither errored nor failed |
| Results.ZipTruncates | bowtie/_commands.py:271 | results beyond the expected list, or expected verdicts beyond the results, are never compared |
| Results.CompareExample | bowtie/_commands.py:268-278 | expected [true, false, unknown] against results [valid, valid, invalid]: only the second position fails, so the case fails |
| Results.CaseDispatch | bowtie/_commands.py:163-167 | the closure keeps the response without its `errored` and `skipped` keys |
| Results.DecodeCase | bowtie/_commands.py:163-182 | a truthy `errored` builds through the CaseErrored constructor even when `skipped` is also set; otherwise a truthy `skipped` builds through CaseSkipped; otherwise through `CaseResult.from_dict`; each gets the response without its `errored` and `skipped` keys, and the outcome always carries the caller's implementation |
| Results.CaseErroredFromKwargs | bowtie/_commands.py:169-172 | (also lines 290-294) builds iff the response binds `seq` and `context` (required) and `caught` (optional) with their types; the case holds exactly those values, and `caught` is true when the response omits it; arguments that do not bind give a TypeError |
| Results.CaseSkippedFromKwargs | bowtie/_commands.py:174-177 | (also lines 323-327) builds iff the response binds `seq` (required) and `message` and `issue_url` (optional) with their types; the case holds exactly those values, None when absent; arguments that do not bind give a TypeError |
| Results.CaseResultFromDict | bowtie/_commands.py:253-259 | a missing `results` is a KeyError and a result that does not decode gives its own error, both before binding; it builds iff the results decode and the rest is exactly `seq`; the case holds that seq, the decoded results in order, the caller's implementation and the caller's expected verdicts |
| Results.ErroredDefaultsCaught | bowtie/_commands.py:168-172 | (also line 294) an errored run response that carries only `seq` and `context` decodes to a CaseErrored with those values and `caught` true |
| Results.ErroredTestDefaultsContext | bowtie/_commands.py:199-200 | (also line 223) an errored test result without a context decodes to ErroredTest with an empty context |
| Results.CaseRoundTrip | bowtie/_commands.py:163-182 | every case outcome an implementation can send decodes to itself, with the caller's expected verdicts attached to a CaseResult |
| Results.BothFlagsDecodeErrored | bowtie/_commands.py:168-177 | a run response with both `errored` and `skipped` true decodes to CaseErrored |

## Left out

- JSON parsing (`json.loads`) is library code. The model takes it as a parameter `parse` that gives None for bytes that are not JSON.
- JSON Schema validation is an external library. The model takes it as a predicate parameter `validate(instance, schema)`. It does not model JSON Schema semantics.
- Exceptions are modelled by kind only (`Kwargs.Error`), without their messages or the offending key names. An AttributeError from calling `pop` on a non-object results entry is reported as `NotAnObject`.
- The runtime class machinery (`command`, `dataclass_transform`, attrs `frozen`, `asdict`) is written out as one encode/decode path over a command datatype. The callable `Run` returns is a `CaseBuilder` value that `Build` applies.
- Dictionary key order is not modelled. JSON objects are maps, so the key order of requests and of the wire view is not captured.
- JSON numbers are integers only; floats are not modelled.
- `report(reporter)` is modelled only as which reporter method is called with which value (`ReporterCall`). The reporter's own behaviour is not part of this model.
- Transport, process lifecycle, timeouts, concurrency and run-level tallies are not part of this model. `Empty` exists as a value the harness builds when there is no response.
- TestCases.TestFromDict: the model refuses a field whose JSON value does not have the declared type (`IllTyped`). attrs would store such a value unchecked. The same applies to TestCases.TestCaseFromDict, Results.TestResultFromDict, Results.CaseErroredFromKwargs, Results.CaseSkippedFromKwargs, Results.CaseResultFromDict, Results.DecodeCase and Commands.FromResponse; on the wire, the response schema already types these fields. Results.CaseResultFromDict differs for `results` in another way: the source does not store `results` but iterates it, so an empty object or an empty string gives an empty result list there, and other non-list values raise TypeError or AttributeError, while the model accepts only a JSON array and reports anything else as `IllTyped("results")`.
- Commands.StartedFromKwargs: `ready` must be a JSON boolean and `version` a JSON integer. The source tests `not ready` by truthiness and `version != 1` by Python equality, so the value `true` passes as version 1 there. A non-integer version such as `"2"` raises VersionMismatch in the source and gives `IllTyped("version")` in the model; in both, no Started value results.
- Commands.FromResponse: `parse` giving None stands for the JSON decoder's `JSONDecodeError`, the only error `from_response` catches. Bytes that `json.loads` cannot decode as text raise `UnicodeDecodeError`, which the source lets through uncaught; the model has no separate path for it and reports a protocol error.
- Results.Build: the run closure in the source calls `CaseResult.from_dict`, which pops `results` from the response dict the closure captured, so a second call of the same closure raises `KeyError('results')`. `Build` is a pure function and gives the same outcome every time it is applied; that single-use behaviour is not captured.
