/** JavaScript values as the styled-component core sees them: the values
    a props object holds, the JSON tree that identity hashing serialises,
    thrown errors, and JavaScript's truthiness and string conversion. */
module Values {

  datatype Option<+T> = None | Some(value: T)

  /** An own property of a JavaScript object: absent, present and
      holding undefined, or holding a value. Object spread copies a
      present key even when it holds undefined. */
  datatype Slot<+T> = Missing | Empty | Has(value: T)

  /** A thrown JavaScript error, represented by its message. */
  datatype Error = Error(message: string)

  /** Either the value an operation produced or the error it threw. */
  datatype Result<+T> = Success(value: T) | Failure(error: Error) {
    predicate IsFailure() { Failure? }

    function PropagateFailure<U>(): Result<U>
      requires Failure?
    {
      Failure(error)
    }

    function Extract(): T
      requires Success?
    {
      value
    }
  }

  /** JSON as JSON.stringify sees it after every value went through the
      replacer; the final rendering to text is left to a collaborator. */
  datatype Json =
    | JUndefined
    | JNull
    | JBool(b: bool)
    | JNum(n: int)
    | JStr(s: string)
    | JArr(items: seq<Json>)
    | JObj(members: seq<(string, Json)>)

  /** The metadata of a JavaScript function object: its identity, the
      properties the core reads (`name`, `displayName`, `defaultProps`),
      what its `toJSON` method returns if it has one, and what its
      `toString` returns (the source text, unless overridden). */
  datatype FnInfo = FnInfo(
    handle: nat,
    name: string,
    displayName: Option<string>,
    toJSON: Option<Json>,
    text: string,
    defaultProps: Value)

  /** A value held by a props object. Functions appear only through their
      metadata: the core never calls a props value. */
  datatype Value =
    | Undefined
    | Null
    | Bool(b: bool)
    | Num(n: int)
    | Str(s: string)
    | Callable(f: FnInfo)
    | Object(handle: nat, text: string)

  /** A props object: own keys to values. A key present with value
      `Undefined` is distinct from an absent key. */
  type Props = map<string, Value>

  /** The value `props[key]` reads: `Undefined` when the key is absent. */
  function Get(props: Props, key: string): (v: Value)
    ensures key !in props ==> v == Undefined
    ensures key in props ==> v == props[key]
  {
    if key in props then props[key] else Undefined
  }

  /** JavaScript's `Boolean(v)` (NaN is not modelled): undefined and null
      are never truthy, functions and objects always are. */
  predicate Truthy(v: Value)
    ensures v.Undefined? || v.Null? ==> !Truthy(v)
    ensures v.Callable? || v.Object? ==> Truthy(v)
  {
    match v
    case Undefined => false
    case Null => false
    case Bool(b) => b
    case Num(n) => n != 0
    case Str(s) => s != ""
    case Callable(_) => true
    case Object(_, _) => true
  }

  function DigitChar(d: nat): (c: char)
    requires d < 10
    ensures '0' <= c <= '9'
  {
    "0123456789"[d]
  }

  /** The decimal digits of `n`, most significant first. */
  function Digits(n: nat): (s: string)
    ensures |s| > 0
    ensures forall i :: 0 <= i < |s| ==> '0' <= s[i] <= '9'
    decreases n
  {
    if n < 10 then [DigitChar(n)] else Digits(n / 10) + [DigitChar(n % 10)]
  }

  /** JavaScript's `String(v)`, which `Array.prototype.join` applies to
      every element that is neither undefined nor null. */
  function ToText(v: Value): string {
    match v
    case Undefined => "undefined"
    case Null => "null"
    case Bool(b) => if b then "true" else "false"
    case Num(n) => if n < 0 then "-" + Digits(-n) else Digits(n)
    case Str(s) => s
    case Callable(f) => f.text
    case Object(_, text) => text
  }
}
