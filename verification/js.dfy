/**
 JavaScript values as seen by the POST helper, together with the type tests the
 helper imports (`validate.io-string-primitive`, `validate.io-object`,
 `validate.io-function`, `validate.io-nonnegative-integer`), JavaScript
 truthiness, the two error classes it throws or returns, and the shape of a
 synchronous call that either returns or throws.
 */
module JsValues {

  /** A JavaScript number, reduced to what the helper distinguishes: an
      integral value, any other non-NaN value (a fraction or an infinity,
      neither of which has a zero remainder modulo 1), and NaN. */
  datatype Number = Int(i: int) | Fractional | NaN

  /** A JavaScript value. `Obj` is a plain object (own enumerable keys and
      their values); `Arr` an array; `Func` any function. */
  datatype JVal =
    | Str(s: string)
    | Num(n: Number)
    | Bool(b: bool)
    | Null
    | Undef
    | Arr(elems: seq<JVal>)
    | Obj(fields: map<string, JVal>)
    | Func

  /** The error classes the helper produces. `TypeError` for a value of the
      wrong type, `PlainError` for a plain `Error` (a string option with a
      value outside its allowed set), and `TransportError` for the failure
      the request layer reports, carrying its message. */
  datatype JsError = TypeError | PlainError | TransportError(message: string)

  /** A value that may be absent. */
  datatype Option<+T> = None | Some(value: T)

  /** An operation that yields a value or reports an error without throwing. */
  datatype Result<+T> = Ok(value: T) | Err(error: JsError)

  /** A synchronous JavaScript call: it returns a value or throws. */
  datatype Call<+T> = Returned(value: T) | Threw(error: JsError)

  /** `validate.io-string-primitive`: a primitive string. */
  predicate IsString(v: JVal) {
    v.Str?
  }

  /** `validate.io-object`: a non-null object that is not an array. Functions
      are not objects for this test. */
  predicate IsObject(v: JVal) {
    v.Obj?
  }

  /** `validate.io-function`. */
  predicate IsFunction(v: JVal) {
    v.Func?
  }

  /** `validate.io-nonnegative-integer`: a number, not NaN, integral and >= 0. */
  predicate IsNonNegativeInteger(v: JVal) {
    v.Num? && v.n.Int? && v.n.i >= 0
  }

  /** JavaScript truthiness: `''`, `0`, `NaN`, `false`, `null` and
      `undefined` are falsy; every other value is truthy. */
  predicate Truthy(v: JVal) {
    match v
    case Str(s) => s != ""
    case Num(n) => n != Int(0) && n != NaN
    case Bool(b) => b
    case Null => false
    case Undef => false
    case _ => true
  }

  /** `a || b`: the first operand when it is truthy, else the second. */
  function Or(a: JVal, b: JVal): (r: JVal)
    ensures Truthy(a) ==> r == a
    ensures !Truthy(a) ==> r == b
  {
    if Truthy(a) then a else b
  }

  /** The i-th argument of a call, `undefined` when the caller passed fewer. */
  function Arg(args: seq<JVal>, i: nat): (r: JVal)
    ensures i < |args| ==> r == args[i]
    ensures i >= |args| ==> r == Undef
  {
    if i < |args| then args[i] else Undef
  }
}
