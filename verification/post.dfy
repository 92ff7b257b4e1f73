/**
 The entry point `post([data,] opts, clbk)`: with exactly two arguments they
 are the options and the callback and the requester is called with no data;
 otherwise the three positions are data, options and callback, and the data
 is always passed on.
 */
module PostRequest {
  import opened JsValues
  import opened Validation
  import opened RequestFactory

  /** The arguments `post` hands on: the requester's own argument list, the
      options, and the callback. */
  datatype Shifted = Shifted(data: seq<JVal>, options: JVal, clbk: JVal)

  /** The argument shift of `post`. Missing positions are `undefined`. */
  function Shift(args: seq<JVal>): (r: Shifted)
    ensures |args| == 2 ==> r == Shifted([], args[0], args[1])
    ensures |args| != 2 ==> r.data == [Arg(args, 0)] && r.options == Arg(args, 1) && r.clbk == Arg(args, 2)
  {
    if |args| == 2 then Shifted([], args[0], args[1])
    else Shifted([Arg(args, 0)], Arg(args, 1), Arg(args, 2))
  }

  /** `post(...)` with the request layer given as `transport`. */
  function Post(args: seq<JVal>, transport: Transport): (r: Call<Completion>)
    ensures
      var s := Shift(args);
      && (Validate(Defaults, s.options).Err? ==> r == Threw(Validate(Defaults, s.options).error))
      && (Validate(Defaults, s.options).Ok? && !IsFunction(s.clbk) ==> r == Threw(TypeError))
    ensures |args| == 2 ==> (r.Threw? <==> !(IsObject(args[0]) && ValidOptions(args[0].fields) && IsFunction(args[1])))
    ensures |args| != 2 ==>
              (r.Threw? <==> !(IsObject(Arg(args, 1)) && ValidOptions(Arg(args, 1).fields) && IsFunction(Arg(args, 2))
                               && (IsString(Arg(args, 0)) || IsObject(Arg(args, 0)))))
    ensures r.Threw? ==> r.error == TypeError || r.error == PlainError
  {
    var s := Shift(args);
    match Factory(s.options, s.clbk)
    case Threw(e) => Threw(e)
    case Returned(req) => Send(req, s.data, transport)
  }

  /** The two-argument form is the three-argument form with `''` as data. */
  lemma TwoArgumentForm(options: JVal, clbk: JVal, transport: Transport)
    ensures Post([options, clbk], transport) == Post([Str(""), options, clbk], transport)
  {
    var r2 := Post([options, clbk], transport);
    var r3 := Post([Str(""), options, clbk], transport);
    assert Shift([options, clbk]) == Shifted([], options, clbk);
    assert Shift([Str(""), options, clbk]) == Shifted([Str("")], options, clbk);
    assert SentData([]) == SentData([Str("")]);
  }

  /** With accepted arguments, the transport's outcome for the data reaches
      the callback: a failure as an error with the same message, a payload
      unchanged after `null`. */
  lemma OutcomeReachesCallback(data: JVal, options: JVal, clbk: JVal, transport: Transport)
    requires IsObject(options) && ValidOptions(options.fields) && IsFunction(clbk)
    requires IsString(data) || IsObject(data)
    ensures
      var outcome := transport(data, Factory(options, clbk).value.opts);
      && (outcome.Failed? ==> Post([data, options, clbk], transport) == Returned(CalledWithError(TransportError(outcome.message))))
      && (outcome.Succeeded? ==> Post([data, options, clbk], transport) == Returned(CalledWithResults(outcome.payload)))
  {
    assert Shift([data, options, clbk]) == Shifted([data], options, clbk);
  }

  /** The same for the two-argument form, which sends `''`. */
  lemma OutcomeReachesCallbackWithoutData(options: JVal, clbk: JVal, transport: Transport)
    requires IsObject(options) && ValidOptions(options.fields) && IsFunction(clbk)
    ensures
      var outcome := transport(Str(""), Factory(options, clbk).value.opts);
      && (outcome.Failed? ==> Post([options, clbk], transport) == Returned(CalledWithError(TransportError(outcome.message))))
      && (outcome.Succeeded? ==> Post([options, clbk], transport) == Returned(CalledWithResults(outcome.payload)))
  {
  }

  /** With three arguments the data is always checked: valid options and a
      function callback still throw a `TypeError` for data that is neither a
      primitive string nor a plain object, explicit `null` and `undefined`
      included, before any request is made. */
  lemma InvalidDataThrows(data: JVal, options: JVal, clbk: JVal, transport: Transport)
    requires IsObject(options) && ValidOptions(options.fields) && IsFunction(clbk)
    requires !IsString(data) && !IsObject(data)
    ensures Post([data, options, clbk], transport) == Threw(TypeError)
  {
    assert Shift([data, options, clbk]) == Shifted([data], options, clbk);
  }

  /** `null` options, and a `port` that is a string, are `TypeError`s thrown
      before any request is made. */
  lemma InvalidOptionsThrow(transport: Transport)
    ensures Post([Str("{}"), Null, Func], transport) == Threw(TypeError)
    ensures Post([Str("{}"), Obj(map["port" := Str("beep")]), Func], transport) == Threw(TypeError)
  {
    SingleOptionErrors(Defaults, "port", Str("beep"));
  }
}
