# travis-ci-post, modelled in Dafny

A model of the synchronous part of `travis-ci-post`, a helper that sends one
POST request to the Travis CI API. It covers:

- the option validator `validate(target, source)`. It checks an options object
  against an allow-list of eight recognised keys, copies those keys onto a
  target, ignores all other keys, and returns the first error it finds;
- the resource-path builder `path(opts)`;
- the requester factory `factory(options, clbk)`. It merges the options onto the
  defaults, resolves the port, checks the callback, gates the request data and
  forwards the outcome to the callback;
- the entry point `post([data,] opts, clbk)` and its argument shift.

JavaScript values are the datatype `JsValues.JVal`. A number is `Int(i)`,
`Fractional` (any other finite or infinite non-NaN value) or `NaN`. The type
tests of the `validate.io-*` packages become predicates on `JVal`. Errors are
`TypeError`, `PlainError` (a plain `Error`) or `TransportError(message)`. A
synchronous call either `Returned` a value or `Threw` an error.

The request layer (`lib/query.js`) is a function parameter, `Transport`. Given
the request data and the resolved options, it reports `Failed(message)` or
`Succeeded(payload)`. Callback delivery becomes the `Completion` value
`CalledWithError(error)` or `CalledWithResults(results)`.

Modules: `JsValues` (js.dfy), `ResourcePath` (path.dfy), `Validation`
(validate.dfy), `RequestFactory` (factory.dfy), `PostRequest` (post.dfy).

### Modelling decisions

- `lib/validate.js` is not part of this model. `Validation.Validate` is written
  from the assertions of `test/test.validate.js`. It checks the recognised keys
  in the order the factory's doc-comment lists them (protocol, hostname, port,
  pathname, query, token, accept, useragent). It stops at the first invalid
  one. That order only decides which error is reported when several options
  are invalid. Every test that passes an invalid option passes it alone, so
  no test fixes which of several invalid options is reported.
- On an error the validator may already have written some keys onto the target.
  The model returns `Err` without a target. The factory throws that error and
  discards the target, so no caller can observe it.
- `lib/defaults.json` is not part of this model. `RequestFactory.Defaults` holds
  the defaults from the doc-comment of `lib/factory.js`, with `port` set to
  `null`. It has no `token` and no `useragent`.
- `post` takes an explicit argument list. Exactly two arguments trigger the shift.
  Any other count uses positions 0, 1 and 2, and a missing position reads as
  `undefined`.
- `validate` accepts any primitive string as `hostname`, the empty string
  included: test/test.validate.js:87-110 rejects only values that are not
  strings, and lib/factory.js:28 documents the option only as a string.

## Model

| member | source | states |
|---|---|---|
| ResourcePath.Path | lib/path.js:12-18 | an empty query gives the pathname unchanged; a non-empty query gives pathname, `?`, query |
| ResourcePath.SplitSearch | lib/path.js:13-17 | splits a path at its first `?` into a `?`-free pathname and the query; a path without `?` is all pathname |
| ResourcePath.PathShape | lib/path.js:13-17 | the pathname is a prefix of the path; the length is the pathname's, or that plus one plus the query's |
| ResourcePath.QueryVerbatim | lib/path.js:14-17 | a non-empty query appears unescaped right after a single `?` that follows the pathname |
| ResourcePath.SplitPath | lib/path.js:12-18 | for a pathname without `?`, splitting the path gives back the pathname and the query exactly |
| ResourcePath.PathInjective | lib/path.js:12-18 | pathnames without `?` with equal paths have equal pathnames and equal queries |
| ResourcePath.PathExamples | test/test.path.js:26-51 | the two expected paths for `/settings/env_vars`, without a query and with `repository_id=4114463` |
| Validation.CheckOption | test/test.validate.js:39-262 | one option passes exactly when valid; a bad `protocol` string is a plain Error (assumed, see Left out); every other failure is a TypeError |
| Validation.FirstError | test/test.validate.js:39-262 | no error exactly when every recognised option present is valid; errors are TypeErrors except a plain Error for a bad `protocol` string (assumed, see Left out); under the assumed check order (see Left out) an invalid `protocol` is reported before anything else |
| Validation.Validate | test/test.validate.js:16-300 | a non-object source is a TypeError; an object passes iff all recognised options are valid; success yields target overwritten by the recognised part; a plain Error only comes from a bad `protocol` string (assumed, see Left out) |
| Validation.ProtocolCheckedFirst | lib/factory.js:27-34 | under the assumed check order, which follows the option list of the factory's doc-comment, an invalid `protocol` decides the error whatever the other options hold |
| Validation.UnrecognizedIgnored | test/test.validate.js:288-300 | validating an object gives the same outcome as validating its recognised part |
| Validation.OnlyUnrecognized | test/test.validate.js:288-300 | an object with only unrecognised keys, of any values, is accepted and leaves the target unchanged |
| Validation.SingleOption | test/test.validate.js:39-262 | a recognised option alone is copied when valid, otherwise it gives its own error |
| Validation.SingleOptionErrors | test/test.validate.js:39-262 | an invalid option alone is a TypeError, except a `protocol` string outside `http`/`https`, which is a plain Error (assumed, see Left out) |
| Validation.AllValidCopied | test/test.validate.js:264-286 | valid options with only recognised keys, validated onto `{}`, give a target equal to the source |
| Validation.ValidateExample | test/test.validate.js:264-286 | the eight-option example validates to exactly its own options |
| RequestFactory.ResolvePort | lib/factory.js:46-52 | a `null` port becomes 443 for `https` and 80 otherwise; an explicit port and every other option are kept |
| RequestFactory.ResolvePortIdempotent | lib/factory.js:46-52 | resolving the port twice is the same as once |
| RequestFactory.Factory | lib/factory.js:38-55 | a validation error is thrown first, then a TypeError for a non-function callback; a requester is returned exactly for valid options and a function callback; recognised options overwrite the defaults, the other defaults are kept, an explicit port is kept and a missing one follows the protocol |
| RequestFactory.FactoryWellFormed | lib/factory.js:41-55 | valid options and a function callback always give a requester, and its options are well formed: protocol `http`/`https`, string fields, a nonnegative integer port |
| RequestFactory.MergedWellFormed | lib/factory.js:41-52 | valid options merged onto the defaults are well formed once the port is resolved |
| RequestFactory.RequestData | lib/factory.js:63-68 | throws a TypeError iff an argument is given that is neither a string nor an object; admitted data passes unchanged, and no argument gives `''` |
| RequestFactory.Done | lib/factory.js:81-86 | a failure reaches the callback alone with its message; a success arrives as `(null, results)` with the results unchanged |
| RequestFactory.Send | lib/factory.js:63-86 | the data gate, then the transport outcome for the admitted data is delivered unchanged |
| RequestFactory.DefaultsAsDocumented | lib/factory.js:26-34 | the defaults are `https`, `api.travis-ci.org`, `/`, empty query and the Travis media type; the port is `null` |
| PostRequest.Shift | lib/post.js:26-32 | two arguments are options and callback with no data; otherwise data, options and callback by position |
| PostRequest.Post | lib/post.js:26-32 | option errors come first, then the callback check; the call throws exactly when options, callback or (three-argument form) data are invalid |
| PostRequest.TwoArgumentForm | lib/post.js:27-31 | `post(opts, clbk)` behaves as `post('', opts, clbk)` |
| PostRequest.OutcomeReachesCallback | lib/factory.js:63-86 | with valid options, a function callback and string or object data (lib/post.js:31), the data is sent as given, a transport failure reaches the callback as an error with the same message, and a payload arrives unchanged; test/test.post.js:95-120 observes the error with message `beep` and :149-176 the deep-equal payload |
| PostRequest.OutcomeReachesCallbackWithoutData | lib/post.js:27-30 | the same for `post(opts, clbk)`, which calls the requester with no argument, so the `''` fallback at lib/factory.js:68 is what is sent; test/test.post.js:122-147 observes only the error with message `beep` reaching the callback |
| PostRequest.InvalidDataThrows | test/test.post.js:25-51 | with three arguments, data that is neither a string nor an object throws a TypeError, `null` and `undefined` included |
| PostRequest.InvalidOptionsThrow | test/test.post.js:53-64 | `null` options and a string `port` throw a TypeError |

## Left out

- The HTTP request itself is left out: the URL, the headers, body serialisation and response parsing. They live in `lib/query.js`, which is not part of this model, and appear only as the `Transport` parameter.
- Asynchronous delivery is left out: "the callback runs exactly once, never before the requester returns" is event-loop behaviour. The model treats the outcome as the value the callback receives.
- The error message texts built by `factory` and by the validator are not modelled. The tests only check the error class. The transport's message is modelled.
- Number objects (`new Number(5)`) and `Object.prototype` tricks are not distinguished from other values.
- `examples/index.js` is a console script that makes a live network call.
- Validation.Validate: the target's partial state after an error is not modelled, because the factory throws and discards it.
- Validation.FirstError: the order of the checks (protocol, hostname, port, pathname, query, token, accept, useragent, as lib/factory.js:27-34 lists the options) is assumed, because `lib/validate.js` is not part of this model and every validator test that passes an invalid option passes it alone (test/test.validate.js:270-279 passes eight valid options together, :291-296 four unrecognised keys); only which error is reported for several invalid options depends on it.
- Validation.ProtocolCheckedFirst: rests on the same assumed check order; the source does not fix which of several invalid options is reported.
- Validation.CheckOption: the tests pin only `err instanceof Error` for a `protocol` string other than `http`/`https` (test/test.validate.js:82), which a `TypeError` also passes; that it is a plain `Error` rather than a `TypeError` is assumed from the test titles ("returns an error" at :64 against "returns a type error" at :39 and the others), because `lib/validate.js` is not part of this model. `Validation.FirstError`, `Validation.Validate` and `Validation.SingleOptionErrors` carry the same assumption.
