/** Values of the JavaScript runtime that the adapters depend on: optional
    fields, thrown errors, HTTP responses and truthiness. */
module Js {

  /** A field that JSON may leave out (`undefined`/`null`) or carry. */
  datatype Option<+T> = None | Some(value: T) {
    function GetOr(default: T): T {
      match this
      case Some(v) => v
      case None => default
    }
  }

  /** A promise that resolves with `value` or rejects with an error message. */
  datatype Result<+T> = Ok(value: T) | Err(error: string)

  /** A JavaScript number, taken as an exact real: rounding, NaN and the
      infinities are not modelled. */
  type Number = real

  /** What `fetch` hands back: a network failure (the promise rejects) or a
      response with its status code and its already decoded JSON body. */
  datatype Fetched<T> = Rejected(reason: string) | Response(status: int, body: T) {
    /** `response.ok` */
    predicate Ok() {
      Response? && 200 <= status <= 299
    }
  }

  /** An HTTP verb used by the clients. */
  datatype Verb = Get | Post | Put | Delete

  /** An outgoing request: verb, absolute URL and header list. */
  datatype Request = Request(verb: Verb, url: string, headers: seq<(string, string)>)

  /** A string operand is truthy unless it is missing or empty. */
  predicate TruthyText(o: Option<string>) {
    o.Some? && o.value != ""
  }

  /** A number operand is truthy unless it is missing or zero. */
  predicate TruthyNumber(o: Option<Number>) {
    o.Some? && o.value != 0.0
  }

  /** An integer operand (a count, an index, a width) is truthy unless it is
      missing or zero. */
  predicate TruthyInt(o: Option<int>) {
    o.Some? && o.value != 0
  }

  /** `a || b` on optional strings. */
  function OrText(a: Option<string>, b: Option<string>): Option<string> {
    if TruthyText(a) then a else b
  }

  /** `a || b` on optional numbers. */
  function OrNumber(a: Option<Number>, b: Option<Number>): Option<Number> {
    if TruthyNumber(a) then a else b
  }

  /** `a || b` on optional arrays: an array, even an empty one, is truthy. */
  function OrArray<T>(a: Option<seq<T>>, b: Option<seq<T>>): Option<seq<T>> {
    if a.Some? then a else b
  }

  /** `a || undefined` on a string: an empty string is dropped. */
  function KeepText(a: Option<string>): Option<string> {
    OrText(a, None)
  }

  /** `a || undefined` on a number: zero is dropped. */
  function KeepNumber(a: Option<Number>): Option<Number> {
    OrNumber(a, None)
  }

  /** `a ?? b`: only a missing value falls through. */
  function Coalesce<T>(a: Option<T>, b: T): T {
    a.GetOr(b)
  }

  /** The `||` fallbacks keep a truthy left operand and otherwise yield the
      right one, whatever it is; `??` differs exactly on the falsy values
      that are present. */
  lemma OrTextVersusCoalesce(a: Option<string>, b: string)
    ensures OrText(a, Some(b)) == Some(if TruthyText(a) then a.value else b)
    ensures Some(Coalesce(a, b)) == OrText(a, Some(b)) <==> (a != Some("") || b == "")
  {
  }
}
