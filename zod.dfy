/** The small part of the validation library that the schemas rely on:
    untyped JSON input, issues, parse results, the library's type check and
    the two library predicates (`.email()` and `.url()`) the model leaves
    uninterpreted. */
module Zod {

  datatype Option<+T> = None | Some(value: T)

  /** An untyped request body as the validation library receives it.
      `Undefined` is a missing key; numbers carry an integer only, since
      no schema looks at their value. */
  datatype Json =
    | Undefined
    | JNull
    | JBool(b: bool)
    | JNumber(n: int)
    | JString(s: string)
    | JArray(items: seq<Json>)
    | JObject(fields: map<string, Json>)

  /** One reported problem; only its message is observable to the handlers. */
  datatype Issue = Issue(message: string)

  /** The outcome of `schema.safeParse`: the transformed value, or every
      issue found, in the order the schema's keys are declared. */
  datatype Parsed<+T> = Success(data: T) | Failure(issues: seq<Issue>)

  /** The library's checks whose exact grammar is not modelled. */
  datatype Checks = Checks(isEmail: string -> bool, isUrl: string -> bool)

  /** The value under `key`, or `Undefined` when the key is missing. */
  function Get(fields: map<string, Json>, key: string): Json
  {
    if key in fields then fields[key] else Undefined
  }

  /** The type name the library prints after "received". */
  function TypeName(v: Json): string
  {
    match v
    case Undefined => "undefined"
    case JNull => "null"
    case JBool(_) => "boolean"
    case JNumber(_) => "number"
    case JString(_) => "string"
    case JArray(_) => "array"
    case JObject(_) => "object"
  }

  /** The library's default message for a value of the wrong type. */
  function InvalidType(expected: string, v: Json): (i: Issue)
    ensures v == Undefined ==> i.message == "Required"
    ensures v != Undefined ==> i.message == "Expected " + expected + ", received " + TypeName(v)
  {
    if v == Undefined then Issue("Required")
    else Issue("Expected " + expected + ", received " + TypeName(v))
  }

  /** `z.string()`: a JSON string passes unchanged, anything else is one issue. */
  function StringValue(v: Json): (p: Parsed<string>)
    ensures p.Success? <==> v.JString?
    ensures p.Success? ==> p.data == v.s
    ensures p.Failure? ==> p.issues == [InvalidType("string", v)]
  {
    if v.JString? then Success(v.s) else Failure([InvalidType("string", v)])
  }

  /** The issues of a result, empty for a success. */
  function IssuesOf<T>(p: Parsed<T>): seq<Issue>
  {
    if p.Failure? then p.issues else []
  }

  /** A failure always carries at least one issue, so `errors[0]` exists. */
  predicate Reported<T>(p: Parsed<T>)
  {
    p.Failure? ==> p.issues != []
  }

  /** `p` is a failure whose first issue is the first issue of the
      failure `q`. */
  predicate ReportsFirst<T, U>(p: Parsed<T>, q: Parsed<U>)
  {
    p.Failure? && q.Failure? && p.issues != [] && q.issues != [] && p.issues[0] == q.issues[0]
  }

  /** The elements' results of an array schema, collected: the array is
      accepted when every element is, and then holds the elements' values
      in order; otherwise the elements' issues are reported in order. */
  function Collect<T>(ps: seq<Parsed<T>>): (p: Parsed<seq<T>>)
    requires forall i :: 0 <= i < |ps| ==> Reported(ps[i])
    ensures Reported(p)
    ensures p.Success? <==> forall i :: 0 <= i < |ps| ==> ps[i].Success?
    ensures p.Success? ==> |p.data| == |ps| && forall i :: 0 <= i < |ps| ==> p.data[i] == ps[i].data
    ensures forall k :: 0 <= k < |ps| && ps[k].Failure? && (forall j :: 0 <= j < k ==> ps[j].Success?) ==>
      ReportsFirst(p, ps[k])
    decreases |ps|
  {
    if ps == [] then Success([])
    else
      var tail := Collect(ps[1..]);
      assert Reported(ps[0]);
      if ps[0].Success? && tail.Success? then Success([ps[0].data] + tail.data)
      else if ps[0].Failure? then Failure(ps[0].issues + IssuesOf(tail))
      else Failure(tail.issues)
  }
}
