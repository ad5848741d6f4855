/** One schema-validation scenario: a schema, its ordered sample instances
    (each with an optional expected verdict), and the wire view of the case
    that implementations under test receive, from which every expected verdict
    has been removed. */
module TestCases {
  import opened Json
  import opened Kwargs

  /** One sample instance. `valid` is the expected verdict, None when unknown. */
  datatype Test = Test(description: string, instance: Json, comment: Option<string>, valid: Option<bool>)

  datatype TestCase = TestCase(
    description: string,
    schema: Json,
    tests: seq<Test>,
    comment: Option<string>,
    registry: Option<map<string, Json>>)

  /** The full attribute mapping of a test (what `Test(**d)` is given by a
      fixture that spells out every field). */
  function TestToDict(t: Test): Json {
    JObject(map[
      "description" := JString(t.description),
      "instance" := t.instance,
      "comment" := if t.comment.Some? then JString(t.comment.value) else JNull,
      "valid" := if t.valid.Some? then JBool(t.valid.value) else JNull])
  }

  /** `Test(**test)`: the object must bind the constructor's keywords. */
  function TestFromDict(test: Json): (r: Result<Test>)
    ensures r.Ok? <==>
      && test.JObject?
      && Binds(test.fields, {"description", "instance"}, {"comment", "valid"})
      && test.fields["description"].JString?
      && OptionalString(test.fields, "comment").Ok?
      && OptionalBool(test.fields, "valid").Ok?
    ensures r.Ok? ==>
      && test.fields["description"] == JString(r.value.description)
      && test.fields["instance"] == r.value.instance
      && OptionalString(test.fields, "comment") == Ok(r.value.comment)
      && OptionalBool(test.fields, "valid") == Ok(r.value.valid)
  {
    if !test.JObject? then Err(NotAnObject)
    else
      var d := test.fields;
      if !Binds(d, {"description", "instance"}, {"comment", "valid"}) then Err(BadArguments)
      else if !d["description"].JString? then Err(IllTyped("description"))
      else
        var comment :- OptionalString(d, "comment");
        var valid :- OptionalBool(d, "valid");
        Ok(Test(d["description"].s, d["instance"], comment, valid))
  }

  /** `[Test(**test) for test in tests]`: the first test that does not bind
      raises, otherwise one Test per entry, in order. */
  function TestsFromDicts(tests: seq<Json>): (r: Result<seq<Test>>)
    ensures r.Ok? <==> forall i :: 0 <= i < |tests| ==> TestFromDict(tests[i]).Ok?
    ensures r.Ok? ==>
      && |r.value| == |tests|
      && forall i :: 0 <= i < |tests| ==> TestFromDict(tests[i]) == Ok(r.value[i])
  {
    if tests == [] then Ok([])
    else
      var first :- TestFromDict(tests[0]);
      var rest :- TestsFromDicts(tests[1..]);
      assert forall i :: 1 <= i < |tests| ==> tests[i] == tests[1..][i - 1];
      Ok([first] + rest)
  }

  /** A `dict[str, Any] | None` field: JSON null and an absent key both give None. */
  function OptionalObject(kwargs: map<string, Json>, name: string): Result<Option<map<string, Json>>> {
    if name !in kwargs then Ok(None)
    else match kwargs[name]
      case JNull => Ok(None)
      case JObject(m) => Ok(Some(m))
      case _ => Err(IllTyped(name))
  }

  /** `TestCase.from_dict(tests, **kwargs)`: the tests are built first, then
      `kwargs["tests"]` is set to them and the case is built from `kwargs`. */
  function TestCaseFromDict(tests: seq<Json>, kwargs: map<string, Json>): (r: Result<TestCase>)
    ensures TestsFromDicts(tests).Err? ==> r == Err(TestsFromDicts(tests).error)
    ensures TestsFromDicts(tests).Ok? && !Binds(kwargs - {"tests"}, {"description", "schema"}, {"comment", "registry"}) ==>
      r == Err(BadArguments)
    ensures r.Ok? <==>
      && TestsFromDicts(tests).Ok?
      && Binds(kwargs - {"tests"}, {"description", "schema"}, {"comment", "registry"})
      && kwargs["description"].JString?
      && OptionalString(kwargs, "comment").Ok?
      && OptionalObject(kwargs, "registry").Ok?
    ensures r.Ok? ==>
      && r.value.tests == TestsFromDicts(tests).value
      && kwargs["description"] == JString(r.value.description)
      && kwargs["schema"] == r.value.schema
      && OptionalString(kwargs, "comment") == Ok(r.value.comment)
      && OptionalObject(kwargs, "registry") == Ok(r.value.registry)
  {
    var built :- TestsFromDicts(tests);
    var args := kwargs - {"tests"};
    if !Binds(args, {"description", "schema"}, {"comment", "registry"}) then Err(BadArguments)
    else if !args["description"].JString? then Err(IllTyped("description"))
    else
      var comment :- OptionalString(args, "comment");
      var registry :- OptionalObject(args, "registry");
      Ok(TestCase(args["description"].s, args["schema"], built, comment, registry))
  }

  /** `asdict(test)` filtered to drop `valid`, and `comment` when it is None. */
  function WireTest(t: Test): map<string, Json> {
    PutOptional(map["description" := JString(t.description), "instance" := t.instance], "comment", t.comment)
  }

  /** `asdict(case)` filtered to drop `tests`, and `comment` and `registry`
      when they are None. */
  function WireFields(tc: TestCase): map<string, Json> {
    var m := PutOptional(map["description" := JString(tc.description), "schema" := tc.schema], "comment", tc.comment);
    if tc.registry.Some? then m["registry" := JObject(tc.registry.value)] else m
  }

  /** `TestCase.without_expected_results`: the `"tests"` list of wire tests,
      updated (`dict.update`, so the right-hand side wins on shared keys) with
      the case's own filtered fields. */
  function WithoutExpectedResults(tc: TestCase): (wire: map<string, Json>)
    ensures wire.Keys ==
      {"tests", "description", "schema"}
      + (if tc.comment.Some? then {"comment"} else {})
      + (if tc.registry.Some? then {"registry"} else {})
    ensures wire["tests"].JArray? && |wire["tests"].items| == |tc.tests|
    ensures forall i :: 0 <= i < |tc.tests| ==>
      && wire["tests"].items[i].JObject?
      && "valid" !in wire["tests"].items[i].fields
      && ("comment" in wire["tests"].items[i].fields <==> tc.tests[i].comment.Some?)
      && wire["tests"].items[i] == JObject(WireTest(tc.tests[i]))
    ensures wire["description"] == JString(tc.description) && wire["schema"] == tc.schema
    ensures tc.comment.Some? ==> wire["comment"] == JString(tc.comment.value)
    ensures tc.registry.Some? ==> wire["registry"] == JObject(tc.registry.value)
  {
    var asDict := map["tests" := JArray(seq(|tc.tests|, i requires 0 <= i < |tc.tests| => JObject(WireTest(tc.tests[i]))))];
    UpdateKeepsTests(tc);
    asDict + WireFields(tc)
  }

  /** The update in `without_expected_results` never overwrites `"tests"`. */
  lemma UpdateKeepsTests(tc: TestCase)
    ensures "tests" !in WireFields(tc)
    ensures WireFields(tc).Keys ==
      {"description", "schema"}
      + (if tc.comment.Some? then {"comment"} else {})
      + (if tc.registry.Some? then {"registry"} else {})
  {
  }

  /** A test as the implementation under test sees it: without its verdict. */
  function Unlabelled(t: Test): Test {
    t.(valid := None)
  }

  /** Reading a wire test back recovers the test with its verdict forgotten,
      and nothing else lost. */
  lemma WireTestRoundTrip(t: Test)
    ensures TestFromDict(JObject(WireTest(t))) == Ok(Unlabelled(t))
  {
  }

  /** The wire tests of a whole case read back, in order, as its tests with
      every verdict forgotten. */
  lemma WireTestsRoundTrip(ts: seq<Test>, items: seq<Json>)
    requires |items| == |ts|
    requires forall i :: 0 <= i < |ts| ==> items[i] == JObject(WireTest(ts[i]))
    ensures TestsFromDicts(items) == Ok(seq(|ts|, i requires 0 <= i < |ts| => Unlabelled(ts[i])))
  {
    assert forall i :: 0 <= i < |ts| ==> TestFromDict(items[i]) == Ok(Unlabelled(ts[i]));
    var r := TestsFromDicts(items);
    assert r.Ok?;
    assert r.value == seq(|ts|, i requires 0 <= i < |ts| => Unlabelled(ts[i]));
  }

  /** Building a case back from its wire view gives the same case with every
      expected verdict forgotten: stripping loses exactly the `valid` keys. */
  lemma WithoutExpectedResultsRoundTrip(tc: TestCase)
    ensures
      var wire := WithoutExpectedResults(tc);
      TestCaseFromDict(wire["tests"].items, wire - {"tests"})
        == Ok(tc.(tests := seq(|tc.tests|, i requires 0 <= i < |tc.tests| => Unlabelled(tc.tests[i]))))
  {
    var wire := WithoutExpectedResults(tc);
    WireTestsRoundTrip(tc.tests, wire["tests"].items);
    var kwargs := wire - {"tests"};
    UpdateKeepsTests(tc);
    assert kwargs == WireFields(tc);
    assert OptionalString(kwargs, "comment") == Ok(tc.comment);
    assert OptionalObject(kwargs, "registry") == Ok(tc.registry);
    assert Binds(kwargs - {"tests"}, {"description", "schema"}, {"comment", "registry"});
    assert TestsFromDicts(wire["tests"].items).Ok?;
    var r := TestCaseFromDict(wire["tests"].items, kwargs);
    assert r.Ok?;
    assert r.value.tests == seq(|tc.tests|, i requires 0 <= i < |tc.tests| => Unlabelled(tc.tests[i]));
    assert r.value.comment == tc.comment && r.value.registry == tc.registry;
  }

  /** Reading a fixture test that spells out every field gives that test back. */
  lemma TestRoundTrip(t: Test)
    ensures TestFromDict(TestToDict(t)) == Ok(t)
  {
  }
}
