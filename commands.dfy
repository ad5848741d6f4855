/** The command protocol: each command kind has a name, a request schema and
    a response schema derived from that name, builds its request as
    `{cmd: name, ...fields}`, and decodes its response by parsing, then
    validating, then constructing the response value. The JSON parser and the
    schema validator are parameters: `parse` gives None for bytes that are
    not JSON, `validate(instance, schema)` is false where the validator would
    raise. */
module Commands {
  import opened Json
  import opened Kwargs
  import opened Results
  import TestCases

  newtype byte = x: int | 0 <= x < 256

  datatype CommandKind = StartKind | DialectKind | RunKind | StopKind

  /** A request to an implementation under test. */
  datatype Command =
    | Start(version: int)
    | Dialect(dialect: string)
    | Run(seqNo: int, testCase: map<string, Json>)
    | Stop
  {
    function Kind(): CommandKind {
      match this
      case Start(_) => StartKind
      case Dialect(_) => DialectKind
      case Run(_, _) => RunKind
      case Stop => StopKind
    }

    /** `asdict(self)`. */
    function Fields(): map<string, Json> {
      match this
      case Start(version) => map["version" := JInt(version)]
      case Dialect(dialect) => map["dialect" := JString(dialect)]
      case Run(seqNo, testCase) => map["seq" := JInt(seqNo), "case" := JObject(testCase)]
      case Stop => map[]
    }
  }

  /** The start command for the one supported protocol version. */
  const START_V1: Command := Start(1)

  /** The one stop command. */
  const STOP: Command := Stop

  function Name(k: CommandKind): string {
    match k
    case StartKind => "start"
    case DialectKind => "dialect"
    case RunKind => "run"
    case StopKind => "stop"
  }

  const IO_SCHEMA_ROOT := "https://bowtie.report/io-schema/"

  /** The schema URI of a command name. */
  function Uri(name: string): string {
    IO_SCHEMA_ROOT + name + "/"
  }

  function RequestSchema(k: CommandKind): Json {
    JObject(map["$ref" := JString(Uri(Name(k)))])
  }

  function ResponseSchema(k: CommandKind): Json {
    JObject(map["$ref" := JString(Uri(Name(k)) + "response/")])
  }

  /** Distinct names have distinct schema URIs. */
  lemma UriInjective(a: string, b: string)
    requires Uri(a) == Uri(b)
    ensures a == b
  {
    var n := |IO_SCHEMA_ROOT|;
    assert a == Uri(a)[n..n + |a|];
    assert b == Uri(b)[n..n + |b|];
  }

  /** No two command kinds share a request or a response schema, and no
      request schema is a response schema. */
  lemma SchemasDistinct(k1: CommandKind, k2: CommandKind)
    ensures RequestSchema(k1) != ResponseSchema(k2)
    ensures k1 != k2 ==> RequestSchema(k1) != RequestSchema(k2) && ResponseSchema(k1) != ResponseSchema(k2)
  {
    var u1, u2 := Uri(Name(k1)), Uri(Name(k2));
    assert RequestSchema(k1).fields["$ref"] == JString(u1);
    assert RequestSchema(k2).fields["$ref"] == JString(u2);
    assert ResponseSchema(k1).fields["$ref"] == JString(u1 + "response/");
    assert ResponseSchema(k2).fields["$ref"] == JString(u2 + "response/");
    assert |u1| != |u2 + "response/"|;
    if k1 != k2 {
      assert |u1| != |u2|;
    }
  }

  /** `dict(cmd=name, **asdict(self))`. */
  function Request(c: Command): (request: map<string, Json>)
    ensures "cmd" !in c.Fields()
    ensures request.Keys == c.Fields().Keys + {"cmd"}
    ensures request["cmd"] == JString(Name(c.Kind()))
    ensures forall key :: key in c.Fields() ==> request[key] == c.Fields()[key]
  {
    c.Fields()["cmd" := JString(Name(c.Kind()))]
  }

  /** `to_request(validate)`: the request is handed out only once the
      validator accepts it against the command's request schema. */
  function ToRequest(c: Command, validate: (Json, Json) -> bool): (r: Result<map<string, Json>>)
    ensures r.Ok? <==> validate(JObject(Request(c)), RequestSchema(c.Kind()))
    ensures r.Ok? ==> r.value == Request(c)
    ensures r.Err? ==> r.error == SchemaError(RequestSchema(c.Kind()))
  {
    var request := Request(c);
    if validate(JObject(request), RequestSchema(c.Kind())) then Ok(request)
    else Err(SchemaError(RequestSchema(c.Kind())))
  }

  /** How an implementation reads a request: the inverse of Request. */
  function CommandFromRequest(request: map<string, Json>): Option<Command> {
    if "cmd" !in request || !request["cmd"].JString? then None
    else
      var name := request["cmd"].s;
      if name == "start" && request.Keys == {"cmd", "version"} && request["version"].JInt? then
        Some(Start(request["version"].i))
      else if name == "dialect" && request.Keys == {"cmd", "dialect"} && request["dialect"].JString? then
        Some(Dialect(request["dialect"].s))
      else if name == "run" && request.Keys == {"cmd", "seq", "case"} && request["seq"].JInt? && request["case"].JObject? then
        Some(Run(request["seq"].i, request["case"].fields))
      else if name == "stop" && request.Keys == {"cmd"} then
        Some(Stop)
      else None
  }

  /** Every request names its command and carries exactly its fields. */
  lemma RequestRoundTrip(c: Command)
    ensures CommandFromRequest(Request(c)) == Some(c)
  {
  }

  /** The response to a start command. */
  datatype Started = Started(implementation: map<string, Json>, ready: bool, version: int)

  /** The response to a dialect command. */
  datatype StartedDialect = StartedDialect(ok: bool) {
    static const OK: StartedDialect := StartedDialect(true)
  }

  /** `Started(**kwargs)`: the keywords must bind, then the `ready` validator
      runs, then the `version` validator. */
  function StartedFromKwargs(kwargs: map<string, Json>): (r: Result<Started>)
    ensures !Binds(kwargs, {"implementation", "ready", "version"}, {}) ==> r == Err(BadArguments)
    ensures r.Ok? <==>
      && Binds(kwargs, {"implementation", "ready", "version"}, {})
      && kwargs["implementation"].JObject?
      && kwargs["ready"] == JBool(true)
      && kwargs["version"] == JInt(1)
    ensures r.Ok? ==> r.value.ready && r.value.version == 1
    ensures r.Ok? ==> "implementation" in kwargs && kwargs["implementation"] == JObject(r.value.implementation)
    ensures
      && Binds(kwargs, {"implementation", "ready", "version"}, {})
      && kwargs["implementation"].JObject? && kwargs["ready"].JBool? && kwargs["version"].JInt?
      ==>
      && (!kwargs["ready"].b ==> r == Err(ImplementationNotReady))
      && (kwargs["ready"].b && kwargs["version"].i != 1 ==> r == Err(VersionMismatch(1, kwargs["version"].i)))
      && (kwargs["ready"].b && kwargs["version"].i == 1 ==> r.Ok?)
  {
    if !Binds(kwargs, {"implementation", "ready", "version"}, {}) then Err(BadArguments)
    else if !kwargs["implementation"].JObject? then Err(IllTyped("implementation"))
    else if !kwargs["ready"].JBool? then Err(IllTyped("ready"))
    else if !kwargs["version"].JInt? then Err(IllTyped("version"))
    else if !kwargs["ready"].b then Err(ImplementationNotReady)
    else if kwargs["version"].i != 1 then Err(VersionMismatch(1, kwargs["version"].i))
    else Ok(Started(kwargs["implementation"].fields, true, 1))
  }

  /** A decoded response: Stop's is None, Run's is the builder of a case
      outcome, still to be called with the implementation and the expected
      verdicts. */
  datatype Reply =
    | ReplyStarted(started: Started)
    | ReplyDialect(dialect: StartedDialect)
    | ReplyCase(builder: CaseBuilder)
    | ReplyNone

  /** `Response(**instance)` for each command's response callable: Started
      for start, StartedDialect for dialect, the case builder for run, and a
      callable taking no arguments for stop. */
  function Construct(k: CommandKind, instance: Json): (r: Result<Reply>)
    ensures !instance.JObject? ==> r == Err(NotAnObject)
    ensures instance.JObject? && k == StartKind ==>
      && (r.Ok? <==> StartedFromKwargs(instance.fields).Ok?)
      && (r.Ok? ==> r.value == ReplyStarted(StartedFromKwargs(instance.fields).value))
      && (r.Err? ==> r.error == StartedFromKwargs(instance.fields).error)
    ensures instance.JObject? && k == DialectKind ==>
      && (!Binds(instance.fields, {"ok"}, {}) ==> r == Err(BadArguments))
      && (r.Ok? <==> instance.fields.Keys == {"ok"} && instance.fields["ok"].JBool?)
      && (r.Ok? ==> r.value == ReplyDialect(StartedDialect(instance.fields["ok"].b)))
    ensures instance.JObject? && k == RunKind ==>
      r == Ok(ReplyCase(CaseDispatch(instance.fields)))
    ensures instance.JObject? && k == StopKind ==>
      && (r.Ok? <==> instance.fields == map[])
      && (r.Ok? ==> r.value == ReplyNone)
      && (r.Err? ==> r.error == BadArguments)
  {
    if !instance.JObject? then Err(NotAnObject)
    else
      var kwargs := instance.fields;
      match k
      case StartKind =>
        var started :- StartedFromKwargs(kwargs);
        Ok(ReplyStarted(started))
      case DialectKind =>
        if !Binds(kwargs, {"ok"}, {}) then Err(BadArguments)
        else if !kwargs["ok"].JBool? then Err(IllTyped("ok"))
        else Ok(ReplyDialect(StartedDialect(kwargs["ok"].b)))
      case RunKind => Ok(ReplyCase(CaseDispatch(kwargs)))
      case StopKind => if kwargs == map[] then Ok(ReplyNone) else Err(BadArguments)
  }

  /** `from_response(response, validate)`: bytes that are not JSON fail
      before the validator is consulted; an instance the validator refuses
      fails before any response value is built. */
  function FromResponse(k: CommandKind, response: seq<byte>, parse: seq<byte> -> Option<Json>, validate: (Json, Json) -> bool): (r: Result<Reply>)
    ensures parse(response).None? ==> r == Err(ProtocolError)
    ensures parse(response).Some? && !validate(parse(response).value, ResponseSchema(k)) ==>
      r == Err(SchemaError(ResponseSchema(k)))
    ensures r.Ok? ==> parse(response).Some? && validate(parse(response).value, ResponseSchema(k))
    ensures parse(response).Some? && validate(parse(response).value, ResponseSchema(k)) ==>
      r == Construct(k, parse(response).value)
    ensures r.Ok? ==>
      match k
      case StartKind => r.value.ReplyStarted? && r.value.started.ready && r.value.started.version == 1
      case DialectKind => r.value.ReplyDialect?
      case RunKind => r.value.ReplyCase?
      case StopKind => r.value.ReplyNone? && parse(response).value == JObject(map[])
  {
    match parse(response)
    case None => Err(ProtocolError)
    case Some(instance) =>
      if !validate(instance, ResponseSchema(k)) then Err(SchemaError(ResponseSchema(k)))
      else Construct(k, instance)
  }

  /** The start handshake: a validated start response yields a Started value
      exactly when it is ready and speaks version 1; readiness is checked
      first. */
  lemma StartHandshake(
    implementation: map<string, Json>, ready: bool, version: int,
    response: seq<byte>, parse: seq<byte> -> Option<Json>, validate: (Json, Json) -> bool)
    requires parse(response) == Some(JObject(map[
      "implementation" := JObject(implementation), "ready" := JBool(ready), "version" := JInt(version)]))
    requires validate(parse(response).value, ResponseSchema(StartKind))
    ensures FromResponse(StartKind, response, parse, validate) ==
      if !ready then Err(ImplementationNotReady)
      else if version != 1 then Err(VersionMismatch(1, version))
      else Ok(ReplyStarted(Started(implementation, true, 1)))
  {
  }

  /** A validated `{"ok": true}` dialect response is the success sentinel. */
  lemma DialectAcknowledged(response: seq<byte>, parse: seq<byte> -> Option<Json>, validate: (Json, Json) -> bool)
    requires parse(response) == Some(JObject(map["ok" := JBool(true)]))
    requires validate(parse(response).value, ResponseSchema(DialectKind))
    ensures FromResponse(DialectKind, response, parse, validate) == Ok(ReplyDialect(StartedDialect.OK))
  {
  }

  /** A validated `{"ok": false}` dialect response is a StartedDialect that
      is not the success sentinel. */
  lemma DialectRefused(response: seq<byte>, parse: seq<byte> -> Option<Json>, validate: (Json, Json) -> bool)
    requires parse(response) == Some(JObject(map["ok" := JBool(false)]))
    requires validate(parse(response).value, ResponseSchema(DialectKind))
    ensures FromResponse(DialectKind, response, parse, validate) == Ok(ReplyDialect(StartedDialect(false)))
    ensures StartedDialect(false) != StartedDialect.OK
  {
  }

  /** Every case outcome an implementation can send comes back from the run
      command's decoding, once the builder is called with the implementation
      and the caller's expected verdicts. */
  lemma RunResponseRoundTrip(
    c: CaseOutcome, expected: seq<Option<bool>>,
    response: seq<byte>, parse: seq<byte> -> Option<Json>, validate: (Json, Json) -> bool)
    requires !c.Empty?
    requires parse(response) == Some(JObject(CaseToResponse(c)))
    requires validate(parse(response).value, ResponseSchema(RunKind))
    ensures
      var r := FromResponse(RunKind, response, parse, validate);
      && r.Ok? && r.value.ReplyCase?
      && Build(r.value.builder, c.implementation, expected)
         == Ok(if c.CaseResult? then c.(expected := expected) else c)
  {
    CaseRoundTrip(c, expected);
  }

  /** The run request for a case never shows the implementation an expected
      verdict: no test entry of the `case` field has a `valid` key. */
  lemma RunRequestHidesExpected(tc: TestCases.TestCase, seqNo: int, validate: (Json, Json) -> bool)
    ensures
      var r := ToRequest(Run(seqNo, TestCases.WithoutExpectedResults(tc)), validate);
      r.Ok? ==>
        && r.value["case"].JObject?
        && "tests" in r.value["case"].fields
        && r.value["case"].fields["tests"].JArray?
        && |r.value["case"].fields["tests"].items| == |tc.tests|
        && forall i :: 0 <= i < |tc.tests| ==>
             && r.value["case"].fields["tests"].items[i].JObject?
             && "valid" !in r.value["case"].fields["tests"].items[i].fields
  {
  }
}
