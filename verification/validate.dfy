/**
 The option validator `validate(target, source)`: checks a caller's options
 object against the allow-list of recognised keys, copies every recognised key
 onto the target, ignores every other key, and reports the first invalid
 option as an error instead of throwing it.
 */
module Validation {
  import opened JsValues

  /** The recognised keys whose values must be primitive strings. */
  const StringKeys: set<string> :=
    {"hostname", "pathname", "query", "token", "accept", "useragent"}

  /** The allow-list: every option key the validator looks at. */
  const RecognizedKeys: set<string> := {"protocol", "port"} + StringKeys

  predicate IsRecognized(key: string) {
    key in RecognizedKeys
  }

  /** The value a recognised option may take: `protocol` is the string `http`
      or `https`, `port` a nonnegative integer, every other one a primitive
      string. */
  predicate OptionValid(key: string, v: JVal) {
    if key == "protocol" then v == Str("http") || v == Str("https")
    else if key == "port" then IsNonNegativeInteger(v)
    else IsString(v)
  }

  /** Every recognised key present in `fields` holds a valid value. */
  predicate ValidOptions(fields: map<string, JVal>) {
    forall k :: k in fields && IsRecognized(k) ==> OptionValid(k, fields[k])
  }

  /** The recognised part of an options object. */
  function RecognizedPart(fields: map<string, JVal>): (m: map<string, JVal>)
    ensures forall k :: k in m <==> k in fields && IsRecognized(k)
  {
    map k | k in fields && IsRecognized(k) :: fields[k]
  }

  /** The check of one recognised option: nothing for a valid value, a
      `TypeError` for a value of the wrong type, and a plain `Error` for a
      `protocol` string other than `http` and `https`. */
  function CheckOption(key: string, v: JVal): (r: Option<JsError>)
    requires IsRecognized(key)
    ensures r.None? <==> OptionValid(key, v)
    ensures r == Some(PlainError) <==> key == "protocol" && IsString(v) && !OptionValid(key, v)
    ensures r.Some? ==> r.value == TypeError || r.value == PlainError
  {
    if key == "protocol" then
      if !IsString(v) then Some(TypeError)
      else if v.s != "http" && v.s != "https" then Some(PlainError)
      else None
    else if key == "port" then
      if !IsNonNegativeInteger(v) then Some(TypeError) else None
    else if !IsString(v) then Some(TypeError)
    else None
  }

  /** The check of the option `key` of an options object: nothing when it is
      absent, otherwise the check of its value. */
  function Check(fields: map<string, JVal>, key: string): (r: Option<JsError>)
    requires IsRecognized(key)
    ensures r.None? <==> key !in fields || OptionValid(key, fields[key])
  {
    if key in fields then CheckOption(key, fields[key]) else None
  }

  /** The recognised options checked one after the other, in the order the
      options are documented (protocol, hostname, port, pathname, query,
      token, accept, useragent); the first failing check decides the error. */
  function FirstError(fields: map<string, JVal>): (r: Option<JsError>)
    ensures r.None? <==> ValidOptions(fields)
    ensures r.Some? ==> r.value == TypeError || r.value == PlainError
    ensures r == Some(PlainError) ==>
              "protocol" in fields && IsString(fields["protocol"]) && !OptionValid("protocol", fields["protocol"])
    ensures "protocol" in fields && !OptionValid("protocol", fields["protocol"]) ==>
              r == CheckOption("protocol", fields["protocol"])
  {
    if Check(fields, "protocol").Some? then Check(fields, "protocol")
    else if Check(fields, "hostname").Some? then Check(fields, "hostname")
    else if Check(fields, "port").Some? then Check(fields, "port")
    else if Check(fields, "pathname").Some? then Check(fields, "pathname")
    else if Check(fields, "query").Some? then Check(fields, "query")
    else if Check(fields, "token").Some? then Check(fields, "token")
    else if Check(fields, "accept").Some? then Check(fields, "accept")
    else Check(fields, "useragent")
  }

  /** `validate(target, source)`: a `TypeError` for a source that is not a
      plain object; otherwise the first invalid recognised option's error,
      or the target with every recognised option of the source copied on. */
  function Validate(target: map<string, JVal>, source: JVal): (r: Result<map<string, JVal>>)
    ensures !IsObject(source) ==> r == Err(TypeError)
    ensures IsObject(source) ==> (r.Ok? <==> ValidOptions(source.fields))
    ensures r.Ok? ==> r.value.Keys == target.Keys + (source.fields.Keys * RecognizedKeys)
    ensures r.Ok? ==> forall k :: k in r.value ==>
              r.value[k] == if k in source.fields && IsRecognized(k) then source.fields[k] else target[k]
    ensures r.Err? ==> r.error == TypeError || r.error == PlainError
    ensures r == Err(PlainError) ==>
              "protocol" in source.fields && IsString(source.fields["protocol"])
              && !OptionValid("protocol", source.fields["protocol"])
  {
    if !IsObject(source) then Err(TypeError)
    else match FirstError(source.fields)
      case Some(e) => Err(e)
      case None => Ok(target + RecognizedPart(source.fields))
  }

  /** The protocol is checked first: an invalid `protocol` decides the error
      whatever the other options hold. */
  lemma ProtocolCheckedFirst(target: map<string, JVal>, fields: map<string, JVal>)
    requires "protocol" in fields && !OptionValid("protocol", fields["protocol"])
    ensures Validate(target, Obj(fields)) == Err(CheckOption("protocol", fields["protocol"]).value)
  {
  }

  /** Unrecognised keys are ignored: validating an options object gives the
      same outcome as validating its recognised part alone. */
  lemma UnrecognizedIgnored(target: map<string, JVal>, fields: map<string, JVal>)
    ensures Validate(target, Obj(fields)) == Validate(target, Obj(RecognizedPart(fields)))
  {
    var part := RecognizedPart(fields);
    forall k | IsRecognized(k) ensures Check(fields, k) == Check(part, k) {
    }
    assert FirstError(fields) == FirstError(part);
    assert RecognizedPart(part) == part;
  }

  /** An options object with no recognised key, whatever its values, is
      accepted and leaves the target as it was. */
  lemma OnlyUnrecognized(target: map<string, JVal>, fields: map<string, JVal>)
    requires forall k :: k in fields ==> !IsRecognized(k)
    ensures Validate(target, Obj(fields)) == Ok(target)
  {
    assert target + RecognizedPart(fields) == target;
  }

  /** One recognised option on its own: accepted and copied when valid,
      otherwise rejected with that option's own error. */
  lemma SingleOption(target: map<string, JVal>, fields: map<string, JVal>, key: string)
    requires IsRecognized(key) && key in fields
    requires forall k :: k in fields && IsRecognized(k) ==> k == key
    ensures OptionValid(key, fields[key]) ==> Validate(target, Obj(fields)) == Ok(target[key := fields[key]])
    ensures !OptionValid(key, fields[key]) ==>
              Validate(target, Obj(fields)) == Err(CheckOption(key, fields[key]).value)
  {
    if OptionValid(key, fields[key]) {
      assert RecognizedPart(fields) == map[key := fields[key]];
      assert target + map[key := fields[key]] == target[key := fields[key]];
    } else {
      forall k | IsRecognized(k) && k != key ensures Check(fields, k).None? {
      }
      assert FirstError(fields) == Check(fields, key);
    }
  }

  /** A non-string `protocol`, `hostname`, `pathname`, `query`, `token`,
      `accept` or `useragent`, or a `port` that is not a nonnegative integer,
      given on its own, is a `TypeError`; a `protocol` string other than
      `http` and `https` is a plain `Error`. */
  lemma SingleOptionErrors(target: map<string, JVal>, key: string, v: JVal)
    requires IsRecognized(key) && !OptionValid(key, v)
    ensures key == "protocol" && IsString(v) ==> Validate(target, Obj(map[key := v])) == Err(PlainError)
    ensures !(key == "protocol" && IsString(v)) ==> Validate(target, Obj(map[key := v])) == Err(TypeError)
  {
    SingleOption(target, map[key := v], key);
  }

  /** When every option present is recognised and valid, validating onto an
      empty target copies the source exactly. */
  lemma AllValidCopied(fields: map<string, JVal>)
    requires forall k :: k in fields ==> IsRecognized(k)
    requires ValidOptions(fields)
    ensures Validate(map[], Obj(fields)) == Ok(fields)
  {
    assert map[] + RecognizedPart(fields) == fields;
  }

  /** The all-options case of the validator's tests. */
  lemma ValidateExample()
    ensures
      var options := map["protocol" := Str("http"), "hostname" := Str("beep.com"), "port" := Num(Int(8080)),
                         "pathname" := Str("/build/17/restart"), "query" := Str("a=b"), "token" := Str("abcdefg"),
                         "accept" := Str("beepboop"), "useragent" := Str("beeper-booper")];
      Validate(map[], Obj(options)) == Ok(options)
  {
    var options := map["protocol" := Str("http"), "hostname" := Str("beep.com"), "port" := Num(Int(8080)),
                       "pathname" := Str("/build/17/restart"), "query" := Str("a=b"), "token" := Str("abcdefg"),
                       "accept" := Str("beepboop"), "useragent" := Str("beeper-booper")];
    AllValidCopied(options);
  }
}
