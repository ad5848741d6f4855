/** The result taxonomy: what one test and one whole case can come back as,
    how a run response is decoded into them, and how a case's results are
    compared with the expected verdicts. */
module Results {
  import opened Json
  import opened Kwargs

  /** The outcome of one test, as the implementation under test reports it. */
  datatype AnyTestResult =
    | TestResult(valid: bool)
    | SkippedTest(message: Option<string>, issue_url: Option<string>)
    | ErroredTest(context: map<string, Json>)
  {
    /** The `skipped` attribute: true only on SkippedTest. */
    predicate Skipped() { SkippedTest? }

    /** The `errored` attribute: true only on ErroredTest. */
    predicate Errored() { ErroredTest? }

    /** `SkippedTest.reason`: the message, else the issue URL, else "skipped". */
    function SkipReason(): (reason: string)
      requires SkippedTest?
      ensures message.Some? ==> reason == message.value
      ensures message.None? && issue_url.Some? ==> reason == issue_url.value
      ensures message.None? && issue_url.None? ==> reason == "skipped"
    {
      if message.Some? then message.value
      else if issue_url.Some? then issue_url.value
      else "skipped"
    }

    /** `ErroredTest.reason`: the context's message when it is truthy, else a
        fixed sentence. The message is returned as the JSON value it is. */
    function ErrorReason(): (reason: Json)
      requires ErroredTest?
      ensures Truthy(reason)
      ensures Flag(context, "message") ==> reason == context["message"]
      ensures !Flag(context, "message") ==> reason == JString("Encountered an error.")
    {
      if Flag(context, "message") then context["message"] else JString("Encountered an error.")
    }
  }

  /** What an implementation sends for one test result. */
  function TestResultToDict(t: AnyTestResult): Json {
    match t
    case TestResult(valid) => JObject(map["valid" := JBool(valid)])
    case SkippedTest(message, issueUrl) =>
      JObject(PutOptional(PutOptional(map["skipped" := JBool(true)], "message", message), "issue_url", issueUrl))
    case ErroredTest(context) => JObject(map["errored" := JBool(true), "context" := JObject(context)])
  }

  /** `TestResult.from_dict`: pops `skipped` and then `errored`, and builds
      from what is left. The skipped flag is checked first, so a result that
      also carries `errored` hands `errored` to SkippedTest, which refuses it. */
  function TestResultFromDict(data: Json): (r: Result<AnyTestResult>)
    ensures !data.JObject? ==> r == Err(NotAnObject)
    ensures data.JObject? && Flag(data.fields, "skipped") ==>
      && (r.Ok? <==>
            && Binds(data.fields - {"skipped"}, {}, {"message", "issue_url"})
            && OptionalString(data.fields, "message").Ok?
            && OptionalString(data.fields, "issue_url").Ok?)
      && (r.Ok? ==>
            && r.value.SkippedTest?
            && OptionalString(data.fields, "message") == Ok(r.value.message)
            && OptionalString(data.fields, "issue_url") == Ok(r.value.issue_url))
      && ("errored" in data.fields ==> r == Err(BadArguments))
    ensures data.JObject? && !Flag(data.fields, "skipped") && Flag(data.fields, "errored") ==>
      && (r.Ok? <==>
            && Binds(data.fields - {"skipped", "errored"}, {}, {"context"})
            && ("context" in data.fields ==> data.fields["context"].JObject?))
      && (r.Ok? ==>
            r.value == ErroredTest(if "context" in data.fields then data.fields["context"].fields else map[]))
    ensures data.JObject? && !Flag(data.fields, "skipped") && !Flag(data.fields, "errored") ==>
      && ("valid" !in data.fields ==> r == Err(MissingKey("valid")))
      && (r.Ok? <==> "valid" in data.fields && data.fields["valid"].JBool?)
      && (r.Ok? ==> r.value == TestResult(data.fields["valid"].b))
  {
    if !data.JObject? then Err(NotAnObject)
    else
      var d := data.fields;
      var afterSkipped := d - {"skipped"};
      if Flag(d, "skipped") then
        assert "errored" in d ==> "errored" in afterSkipped.Keys && "errored" !in {"message", "issue_url"};
        if !Binds(afterSkipped, {}, {"message", "issue_url"}) then Err(BadArguments)
        else
          var message :- OptionalString(afterSkipped, "message");
          var issueUrl :- OptionalString(afterSkipped, "issue_url");
          Ok(SkippedTest(message, issueUrl))
      else
        var afterErrored := afterSkipped - {"errored"};
        if Flag(afterSkipped, "errored") then
          if !Binds(afterErrored, {}, {"context"}) then Err(BadArguments)
          else if "context" in afterErrored && !afterErrored["context"].JObject? then Err(IllTyped("context"))
          else Ok(ErroredTest(if "context" in afterErrored then afterErrored["context"].fields else map[]))
        else if "valid" !in afterErrored then Err(MissingKey("valid"))
        else if !afterErrored["valid"].JBool? then Err(IllTyped("valid"))
        else Ok(TestResult(afterErrored["valid"].b))
  }

  /** `[TestResult.from_dict(t) for t in results]`: the first entry that does
      not decode raises, otherwise one result per entry, in order. */
  function ResultsFromDicts(items: seq<Json>): (r: Result<seq<AnyTestResult>>)
    ensures r.Ok? <==> forall i :: 0 <= i < |items| ==> TestResultFromDict(items[i]).Ok?
    ensures r.Ok? ==>
      && |r.value| == |items|
      && forall i :: 0 <= i < |items| ==> TestResultFromDict(items[i]) == Ok(r.value[i])
  {
    if items == [] then Ok([])
    else
      var first :- TestResultFromDict(items[0]);
      var rest :- ResultsFromDicts(items[1..]);
      assert forall i :: 1 <= i < |items| ==> items[i] == items[1..][i - 1];
      Ok([first] + rest)
  }

  /** The outcome of one whole case. */
  datatype CaseOutcome =
    | CaseResult(implementation: string, seqNo: int, results: seq<AnyTestResult>, expected: seq<Option<bool>>)
    | CaseErrored(implementation: string, seqNo: int, context: map<string, Json>, caught: bool)
    | CaseSkipped(implementation: string, seqNo: int, message: Option<string>, issue_url: Option<string>)
    | Empty(implementation: string)
  {
    /** The `errored` attribute: a class constant on every variant. */
    predicate Errored() {
      CaseErrored? || Empty?
    }

    /** The `failed` attribute: computed by comparison on CaseResult, a false
        class constant on the other variants. */
    predicate Failed() {
      CaseResult? && AnyFailed(Compare(results, expected))
    }

    /** `report(reporter)`: the one reporter method the outcome calls. */
    function Report(): (call: ReporterCall)
      ensures CaseResult? <==> call == CallGotResults(this)
      ensures CaseErrored? <==> call == CallErrored(this)
      ensures CaseSkipped? <==> call == CallSkipped(this)
      ensures Empty? <==> call == CallNoResponse(implementation)
    {
      match this
      case CaseResult(_, _, _, _) => CallGotResults(this)
      case CaseErrored(_, _, _, _) => CallErrored(this)
      case CaseSkipped(_, _, _, _) => CallSkipped(this)
      case Empty(implementation) => CallNoResponse(implementation)
    }
  }

  /** The methods of the case reporter that an outcome can call. */
  datatype ReporterCall =
    | CallGotResults(result: CaseOutcome)
    | CallErrored(result: CaseOutcome)
    | CallSkipped(result: CaseOutcome)
    | CallNoResponse(implementation: string)

  /** `CaseErrored.uncaught`: an error the harness itself detected. */
  function Uncaught(implementation: string, seqNo: int, context: map<string, Json>): (r: CaseOutcome)
    ensures r.CaseErrored? && !r.caught
    ensures r.implementation == implementation && r.seqNo == seqNo && r.context == context
    ensures r.Errored() && !r.Failed()
    ensures r.Report() == CallErrored(r)
  {
    CaseErrored(implementation, seqNo, context, false)
  }

  /** The failure rule of `compare` for one position: a plain result whose
      verdict contradicts a known expected verdict. */
  predicate FailedPair(test: AnyTestResult, expected: Option<bool>) {
    !test.Skipped() && !test.Errored() && expected.Some? && expected.value != test.valid
  }

  function Min(a: nat, b: nat): nat {
    if a <= b then a else b
  }

  /** `CaseResult.compare`: the results zipped with the expected verdicts,
      each with its failure flag. `zip` stops at the shorter list. */
  function Compare(results: seq<AnyTestResult>, expected: seq<Option<bool>>): (pairs: seq<(AnyTestResult, bool)>)
    ensures |pairs| == Min(|results|, |expected|)
    ensures forall i :: 0 <= i < |pairs| ==> pairs[i] == (results[i], FailedPair(results[i], expected[i]))
  {
    if results == [] || expected == [] then []
    else [(results[0], FailedPair(results[0], expected[0]))] + Compare(results[1..], expected[1..])
  }

  /** `any(failed for _, failed in pairs)`. */
  predicate AnyFailed(pairs: seq<(AnyTestResult, bool)>) {
    exists i :: 0 <= i < |pairs| && pairs[i].1
  }

  /** A failure is exactly a known verdict contradicted by a plain result:
      skips, errors and unknown verdicts never fail. */
  lemma FailedPairIff(test: AnyTestResult, expected: Option<bool>)
    ensures FailedPair(test, expected) <==> test.TestResult? && expected == Some(!test.valid)
  {
  }

  /** A case fails iff some position shared by its results and its expected
      verdicts fails; only CaseResult can fail. */
  lemma FailedIff(c: CaseOutcome)
    ensures c.Failed() <==>
      c.CaseResult? && exists i :: 0 <= i < |c.results| && i < |c.expected| && FailedPair(c.results[i], c.expected[i])
  {
  }

  /** An errored outcome is never a failed one, and a skipped case is
      neither errored nor failed. */
  lemma OutcomeFlags(c: CaseOutcome)
    ensures c.Errored() ==> !c.Failed()
    ensures c.CaseSkipped? ==> !c.Errored() && !c.Failed()
    ensures c.Errored() <==> c.CaseErrored? || c.Empty?
  {
  }

  /** Results past the end of the expected verdicts, or expected verdicts past
      the end of the results, are never compared. */
  lemma ZipTruncates(results: seq<AnyTestResult>, expected: seq<Option<bool>>)
    ensures
      var n := Min(|results|, |expected|);
      Compare(results, expected) == Compare(results[..n], expected[..n])
  {
  }

  /** The closure `_case_result` returns, before it is called with the
      implementation and the expected verdicts: which outcome it will build,
      and from which remaining response fields. */
  datatype CaseBuilder =
    | ErroredBuilder(response: map<string, Json>)
    | SkippedBuilder(response: map<string, Json>)
    | ResultBuilder(response: map<string, Json>)

  /** `_case_result(**instance)`: `errored` and `skipped` are taken out of the
      response and read as flags, `errored` first. */
  function CaseDispatch(instance: map<string, Json>): (b: CaseBuilder)
    ensures b.response == instance - {"errored", "skipped"}
  {
    var response := instance - {"errored", "skipped"};
    if Flag(instance, "errored") then ErroredBuilder(response)
    else if Flag(instance, "skipped") then SkippedBuilder(response)
    else ResultBuilder(response)
  }

  /** `CaseErrored(implementation=..., **response)`: `seq` and `context` are
      required, and `caught` defaults to true when the response omits it. */
  function CaseErroredFromKwargs(implementation: string, response: map<string, Json>): (r: Result<CaseOutcome>)
    ensures !Binds(response, {"seq", "context"}, {"caught"}) ==> r == Err(BadArguments)
    ensures r.Ok? <==>
      && Binds(response, {"seq", "context"}, {"caught"})
      && response["seq"].JInt?
      && response["context"].JObject?
      && ("caught" in response ==> response["caught"].JBool?)
    ensures r.Ok? ==>
      && r.value.CaseErrored?
      && r.value.implementation == implementation
      && response["seq"] == JInt(r.value.seqNo)
      && response["context"] == JObject(r.value.context)
      && ("caught" in response ==> response["caught"] == JBool(r.value.caught))
      && ("caught" !in response ==> r.value.caught)
  {
    if !Binds(response, {"seq", "context"}, {"caught"}) then Err(BadArguments)
    else if !response["seq"].JInt? then Err(IllTyped("seq"))
    else if !response["context"].JObject? then Err(IllTyped("context"))
    else if "caught" in response && !response["caught"].JBool? then Err(IllTyped("caught"))
    else
      var caught := if "caught" in response then response["caught"].b else true;
      Ok(CaseErrored(implementation, response["seq"].i, response["context"].fields, caught))
  }

  /** `CaseSkipped(implementation=..., **response)`: `seq` is required, and
      `message` and `issue_url` default to None. */
  function CaseSkippedFromKwargs(implementation: string, response: map<string, Json>): (r: Result<CaseOutcome>)
    ensures !Binds(response, {"seq"}, {"message", "issue_url"}) ==> r == Err(BadArguments)
    ensures r.Ok? <==>
      && Binds(response, {"seq"}, {"message", "issue_url"})
      && response["seq"].JInt?
      && OptionalString(response, "message").Ok?
      && OptionalString(response, "issue_url").Ok?
    ensures r.Ok? ==>
      && r.value.CaseSkipped?
      && r.value.implementation == implementation
      && response["seq"] == JInt(r.value.seqNo)
      && OptionalString(response, "message") == Ok(r.value.message)
      && OptionalString(response, "issue_url") == Ok(r.value.issue_url)
  {
    if !Binds(response, {"seq"}, {"message", "issue_url"}) then Err(BadArguments)
    else if !response["seq"].JInt? then Err(IllTyped("seq"))
    else
      var message :- OptionalString(response, "message");
      var issueUrl :- OptionalString(response, "issue_url");
      Ok(CaseSkipped(implementation, response["seq"].i, message, issueUrl))
  }

  /** `CaseResult.from_dict(response, implementation=..., expected=...)`: the
      results are popped and decoded first; what is left, with the two
      keyword arguments, must bind the constructor. */
  function CaseResultFromDict(data: map<string, Json>, implementation: string, expected: seq<Option<bool>>): (r: Result<CaseOutcome>)
    ensures "results" !in data ==> r == Err(MissingKey("results"))
    ensures "results" in data && data["results"].JArray? && ResultsFromDicts(data["results"].items).Err? ==>
      r == Err(ResultsFromDicts(data["results"].items).error)
    ensures r.Ok? <==>
      && "results" in data
      && data["results"].JArray?
      && ResultsFromDicts(data["results"].items).Ok?
      && data.Keys == {"results", "seq"}
      && data["seq"].JInt?
    ensures r.Ok? ==>
      && r.value.CaseResult?
      && r.value.implementation == implementation
      && data["seq"] == JInt(r.value.seqNo)
      && ResultsFromDicts(data["results"].items) == Ok(r.value.results)
      && r.value.expected == expected
  {
    if "results" !in data then Err(MissingKey("results"))
    else if !data["results"].JArray? then Err(IllTyped("results"))
    else
      var results :- ResultsFromDicts(data["results"].items);
      var rest := data - {"results"};
      if !Binds(rest, {"seq"}, {}) then Err(BadArguments)
      else if !rest["seq"].JInt? then Err(IllTyped("seq"))
      else Ok(CaseResult(implementation, rest["seq"].i, results, expected))
  }

  /** Calling the closure with the implementation and the expected verdicts. */
  function Build(b: CaseBuilder, implementation: string, expected: seq<Option<bool>>): Result<CaseOutcome> {
    match b
    case ErroredBuilder(response) => CaseErroredFromKwargs(implementation, response)
    case SkippedBuilder(response) => CaseSkippedFromKwargs(implementation, response)
    case ResultBuilder(response) => CaseResultFromDict(response, implementation, expected)
  }

  /** A run response decoded and built for an implementation: `errored` wins
      over `skipped`, and a CaseResult carries the caller's expected verdicts,
      never anything read from the response. */
  function DecodeCase(instance: map<string, Json>, implementation: string, expected: seq<Option<bool>>): (r: Result<CaseOutcome>)
    ensures r.Ok? ==> r.value.implementation == implementation && !r.value.Empty?
    ensures Flag(instance, "errored") ==>
      r == CaseErroredFromKwargs(implementation, instance - {"errored", "skipped"})
    ensures !Flag(instance, "errored") && Flag(instance, "skipped") ==>
      r == CaseSkippedFromKwargs(implementation, instance - {"errored", "skipped"})
    ensures !Flag(instance, "errored") && !Flag(instance, "skipped") ==>
      r == CaseResultFromDict(instance - {"errored", "skipped"}, implementation, expected)
    ensures !Flag(instance, "errored") && !Flag(instance, "skipped") ==>
      && ("results" !in instance ==> r == Err(MissingKey("results")))
      && (r.Ok? ==> r.value.CaseResult? && r.value.expected == expected)
    ensures r.Ok? && r.value.CaseResult? ==>
      && instance["results"].JArray?
      && ResultsFromDicts(instance["results"].items) == Ok(r.value.results)
  {
    Build(CaseDispatch(instance), implementation, expected)
  }

  /** What an implementation sends for a case outcome (Empty is the absence
      of any response, so it has no wire form). */
  function CaseToResponse(c: CaseOutcome): map<string, Json>
    requires !c.Empty?
  {
    match c
    case CaseResult(_, seqNo, results, _) =>
      map["seq" := JInt(seqNo), "results" := JArray(seq(|results|, i requires 0 <= i < |results| => TestResultToDict(results[i])))]
    case CaseErrored(_, seqNo, context, caught) =>
      map["errored" := JBool(true), "seq" := JInt(seqNo), "context" := JObject(context), "caught" := JBool(caught)]
    case CaseSkipped(_, seqNo, message, issueUrl) =>
      PutOptional(PutOptional(map["skipped" := JBool(true), "seq" := JInt(seqNo)], "message", message), "issue_url", issueUrl)
  }

  /** Every test result an implementation can send decodes to itself. */
  lemma TestResultRoundTrip(t: AnyTestResult)
    ensures TestResultFromDict(TestResultToDict(t)) == Ok(t)
  {
  }

  /** A list of wire results decodes, in order, to the results it encodes. */
  lemma ResultsRoundTrip(results: seq<AnyTestResult>)
    ensures
      ResultsFromDicts(seq(|results|, i requires 0 <= i < |results| => TestResultToDict(results[i])))
        == Ok(results)
  {
    var items := seq(|results|, i requires 0 <= i < |results| => TestResultToDict(results[i]));
    forall i | 0 <= i < |results|
      ensures TestResultFromDict(items[i]) == Ok(results[i])
    {
      TestResultRoundTrip(results[i]);
    }
    var r := ResultsFromDicts(items);
    assert r.Ok?;
    assert r.value == results;
  }

  /** Every case outcome an implementation can send decodes to itself, with
      the caller's expected verdicts attached to a CaseResult. */
  lemma CaseRoundTrip(c: CaseOutcome, expected: seq<Option<bool>>)
    requires !c.Empty?
    ensures
      DecodeCase(CaseToResponse(c), c.implementation, expected)
        == Ok(if c.CaseResult? then c.(expected := expected) else c)
  {
    if c.CaseResult? {
      ResultsRoundTrip(c.results);
      var response := CaseToResponse(c);
      assert CaseDispatch(response) == ResultBuilder(response);
    }
  }

  /** A run response with both flags set is decoded as an errored case. */
  lemma BothFlagsDecodeErrored()
    ensures
      DecodeCase(
        map["errored" := JBool(true), "skipped" := JBool(true), "seq" := JInt(3), "context" := JObject(map[])],
        "impl", [Some(true)])
      == Ok(CaseErrored("impl", 3, map[], true))
  {
  }

  /** The usual errored response, which leaves out `caught`, decodes to an
      errored case that was caught, whatever the other flag and the context. */
  lemma ErroredDefaultsCaught(instance: map<string, Json>, implementation: string, expected: seq<Option<bool>>)
    requires Flag(instance, "errored")
    requires instance.Keys - {"errored", "skipped"} == {"seq", "context"}
    requires instance["seq"].JInt? && instance["context"].JObject?
    ensures DecodeCase(instance, implementation, expected)
      == Ok(CaseErrored(implementation, instance["seq"].i, instance["context"].fields, true))
  {
    var response := instance - {"errored", "skipped"};
    assert response.Keys == {"seq", "context"};
    assert Binds(response, {"seq", "context"}, {"caught"});
  }

  /** An errored test result without a context decodes with an empty one. */
  lemma ErroredTestDefaultsContext(data: map<string, Json>)
    requires Flag(data, "errored") && !Flag(data, "skipped")
    requires data.Keys <= {"skipped", "errored"}
    ensures TestResultFromDict(JObject(data)) == Ok(ErroredTest(map[]))
  {
    assert Binds(data - {"skipped", "errored"}, {}, {"context"});
  }

  /** A test result with both flags set does not decode at all. */
  lemma BothTestFlagsRejected()
    ensures TestResultFromDict(JObject(map["skipped" := JBool(true), "errored" := JBool(true)])) == Err(BadArguments)
  {
  }

  /** Three tests expected valid, invalid and unknown, all answered "valid"
      except the last: only the second position fails, so the case fails. */
  lemma CompareExample()
    ensures
      var results := [TestResult(true), TestResult(true), TestResult(false)];
      var expected := [Some(true), Some(false), None];
      && Compare(results, expected) == [(results[0], false), (results[1], true), (results[2], false)]
      && CaseResult("impl", 1, results, expected).Failed()
  {
  }

}
