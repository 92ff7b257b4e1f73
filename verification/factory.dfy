/**
 The requester factory `factory(options, clbk)`: validates the options onto a
 fresh copy of the defaults, resolves a missing port from the protocol, checks
 the callback, and returns a requester `post([data])` that gates its data,
 hands it to the request layer, and forwards the outcome to the callback as
 `clbk(error)` or `clbk(null, results)`.

 The request layer itself (building the HTTP request, sending it, parsing the
 reply) is a parameter: a transport that, given the body and the options,
 reports either a failure message or a payload.
 */
module RequestFactory {
  import opened JsValues
  import opened Validation

  const DefaultHttpPort: int := 80
  const DefaultHttpsPort: int := 443

  /** The defaults every call starts from. The port is `null` until it is
      resolved from the protocol; `token` and `useragent` have no default. */
  const Defaults: map<string, JVal> := map[
    "protocol" := Str("https"),
    "hostname" := Str("api.travis-ci.org"),
    "port" := Null,
    "pathname" := Str("/"),
    "query" := Str(""),
    "accept" := Str("application/vnd.travis-ci.2+json")
  ]

  /** What the request layer reports for one request. */
  datatype TransportOutcome = Failed(message: string) | Succeeded(payload: JVal)

  /** The request layer: sends `data` with the resolved options. */
  type Transport = (JVal, map<string, JVal>) -> TransportOutcome

  /** How the caller's callback is invoked: `clbk(error)` alone, or
      `clbk(null, results)`. */
  datatype Completion = CalledWithError(error: JsError) | CalledWithResults(results: JVal)

  /** A requester: the resolved options it sends with and the callback it
      reports to. */
  datatype Requester = Requester(opts: map<string, JVal>, clbk: JVal)

  /** The port a protocol implies when none was given. */
  function PortFor(protocol: JVal): int {
    if protocol == Str("https") then DefaultHttpsPort else DefaultHttpPort
  }

  /** Options as a requester sends them: every field concrete and of the
      right type, the port a nonnegative integer. */
  ghost predicate WellFormed(opts: map<string, JVal>) {
    && "protocol" in opts && OptionValid("protocol", opts["protocol"])
    && "port" in opts && IsNonNegativeInteger(opts["port"])
    && "hostname" in opts && "pathname" in opts && "query" in opts && "accept" in opts
    && forall k :: k in opts && k in StringKeys ==> IsString(opts[k])
  }

  /** Fills in a `null` port from the protocol and leaves everything else,
      an explicit port included, as it is. */
  function ResolvePort(opts: map<string, JVal>): (r: map<string, JVal>)
    ensures r.Keys == opts.Keys
    ensures forall k :: k in opts && k != "port" ==> r[k] == opts[k]
    ensures "port" in opts && opts["port"] == Null ==>
              r["port"] == Num(Int(if "protocol" in opts && opts["protocol"] == Str("https") then DefaultHttpsPort else DefaultHttpPort))
    ensures "port" in opts && opts["port"] != Null ==> r["port"] == opts["port"]
  {
    if "port" in opts && opts["port"] == Null then
      var protocol := if "protocol" in opts then opts["protocol"] else Undef;
      opts["port" := Num(Int(PortFor(protocol)))]
    else opts
  }

  /** Resolving the port a second time changes nothing. */
  lemma ResolvePortIdempotent(opts: map<string, JVal>)
    ensures ResolvePort(ResolvePort(opts)) == ResolvePort(opts)
  {
  }

  /** `factory(options, clbk)`. A validation error is thrown first; then a
      callback that is not a function is a `TypeError`; otherwise the
      requester sends with the defaults overwritten by the recognised
      options, the port resolved, and reports to `clbk`. */
  function Factory(options: JVal, clbk: JVal): (r: Call<Requester>)
    ensures Validate(Defaults, options).Err? ==> r == Threw(Validate(Defaults, options).error)
    ensures Validate(Defaults, options).Ok? && !IsFunction(clbk) ==> r == Threw(TypeError)
    ensures r.Returned? <==> IsObject(options) && ValidOptions(options.fields) && IsFunction(clbk)
    ensures r.Returned? ==> r.value.clbk == clbk
    ensures r.Returned? && IsObject(options) ==>
              r.value.opts.Keys == Defaults.Keys + RecognizedPart(options.fields).Keys
    ensures r.Returned? && IsObject(options) ==> forall k :: k in options.fields && IsRecognized(k) && k != "port" ==>
              k in r.value.opts && r.value.opts[k] == options.fields[k]
    ensures r.Returned? && IsObject(options) ==> forall k :: k in Defaults && k !in options.fields && k != "port" ==>
              k in r.value.opts && r.value.opts[k] == Defaults[k]
    ensures r.Returned? && IsObject(options) && "port" in options.fields ==>
              "port" in r.value.opts && r.value.opts["port"] == options.fields["port"]
    ensures r.Returned? && IsObject(options) && "port" !in options.fields ==>
              "port" in r.value.opts && "protocol" in r.value.opts &&
              r.value.opts["port"] == Num(Int(if r.value.opts["protocol"] == Str("https") then DefaultHttpsPort else DefaultHttpPort))
  {
    match Validate(Defaults, options)
    case Err(e) => Threw(e)
    case Ok(validated) =>
      var opts := ResolvePort(validated);
      if !IsFunction(clbk) then Threw(TypeError)
      else Returned(Requester(opts, clbk))
  }

  /** A requester always sends with well-formed options. */
  lemma FactoryWellFormed(options: JVal, clbk: JVal)
    requires IsObject(options) && ValidOptions(options.fields) && IsFunction(clbk)
    ensures Factory(options, clbk).Returned? && WellFormed(Factory(options, clbk).value.opts)
  {
    MergedWellFormed(options.fields, Validate(Defaults, options).value);
  }

  /** Valid options merged onto the defaults are well formed once the port
      is resolved. */
  lemma MergedWellFormed(fields: map<string, JVal>, validated: map<string, JVal>)
    requires ValidOptions(fields)
    requires validated == Defaults + RecognizedPart(fields)
    ensures WellFormed(ResolvePort(validated))
  {
    var opts := ResolvePort(validated);
    assert "protocol" in validated && OptionValid("protocol", validated["protocol"]);
    forall k | k in opts && k in StringKeys
      ensures IsString(opts[k])
    {
      assert IsRecognized(k);
      if k !in fields {
        assert k in Defaults;
      }
    }
  }

  /** Data the requester admits: the data itself, or `''` when there was no
      argument. */
  function SentData(args: seq<JVal>): JVal {
    if |args| == 0 then Str("") else args[0]
  }

  /** The data gate of the requester `post([data])`: an argument that is
      neither a primitive string nor a plain object is a `TypeError`; no
      argument at all is never one; a falsy argument is replaced by `''`. */
  function RequestData(args: seq<JVal>): (r: Call<JVal>)
    ensures r.Threw? <==> |args| > 0 && !IsString(args[0]) && !IsObject(args[0])
    ensures r.Threw? ==> r.error == TypeError
    ensures r.Returned? ==> r.value == SentData(args)
    ensures r.Returned? ==> IsString(r.value) || IsObject(r.value)
  {
    var data := Arg(args, 0);
    if |args| > 0 && !IsString(data) && !IsObject(data) then Threw(TypeError)
    else Returned(Or(data, Str("")))
  }

  /** `done(error, results)`: an error goes to the callback alone, otherwise
      the callback gets `null` and the results. */
  function Done(outcome: TransportOutcome): (r: Completion)
    ensures r.CalledWithError? <==> outcome.Failed?
    ensures outcome.Failed? ==> r.error == TransportError(outcome.message)
    ensures outcome.Succeeded? ==> r.results == outcome.payload
  {
    match outcome
    case Failed(message) => CalledWithError(TransportError(message))
    case Succeeded(payload) => CalledWithResults(payload)
  }

  /** One call of the requester: the data gate, then one request through the
      transport, whose outcome reaches the callback unchanged. */
  function Send(req: Requester, args: seq<JVal>, transport: Transport): (r: Call<Completion>)
    ensures r.Threw? <==> |args| > 0 && !IsString(args[0]) && !IsObject(args[0])
    ensures r.Threw? ==> r.error == TypeError
    ensures r.Returned? && transport(SentData(args), req.opts).Failed? ==>
              r.value == CalledWithError(TransportError(transport(SentData(args), req.opts).message))
    ensures r.Returned? && transport(SentData(args), req.opts).Succeeded? ==>
              r.value == CalledWithResults(transport(SentData(args), req.opts).payload)
  {
    match RequestData(args)
    case Threw(e) => Threw(e)
    case Returned(data) => Returned(Done(transport(data, req.opts)))
  }

  /** The documented defaults, and the port each protocol implies. */
  lemma DefaultsAsDocumented()
    ensures Defaults["protocol"] == Str("https")
    ensures Defaults["hostname"] == Str("api.travis-ci.org")
    ensures Defaults["pathname"] == Str("/")
    ensures Defaults["query"] == Str("")
    ensures Defaults["accept"] == Str("application/vnd.travis-ci.2+json")
    ensures Defaults["port"] == Null
    ensures "token" !in Defaults && "useragent" !in Defaults
  {
  }
}
