/**
 * The JavaScript values the model needs: an optional value standing for
 * `null`/`undefined`, JSON-like request bodies and records, and the
 * language's notion of a falsy value.
 */
module Js {

  datatype Option<T> = None | Some(value: T)

  /** A JSON value as a request body or a stored record carries it (numbers are integers here). */
  datatype JsValue = JNull | JBool(b: bool) | JNum(n: int) | JStr(s: string) | JList(items: seq<JsValue>)

  /** A plain object: a key that is not present reads as `undefined`. */
  type JsObject = map<string, JsValue>

  /** `obj[key]`, with `None` for `undefined`. */
  function Get(obj: JsObject, key: string): Option<JsValue> {
    if key in obj then Some(obj[key]) else None
  }

  /** `!v`: `undefined`, `null`, `false`, `0` and `''` are falsy; everything else is truthy. */
  predicate Falsy(v: Option<JsValue>) {
    match v
    case None => true
    case Some(JNull) => true
    case Some(JBool(b)) => !b
    case Some(JNum(n)) => n == 0
    case Some(JStr(s)) => s == ""
    case Some(JList(_)) => false
  }

  /** `v || fallback`: the value itself when it is truthy, else the fallback. */
  function Or(v: Option<JsValue>, fallback: JsValue): JsValue {
    if Falsy(v) then fallback else v.value
  }

  /** A possibly missing string as a JavaScript value. */
  function StrValue(s: Option<string>): Option<JsValue> {
    if s.Some? then Some(JStr(s.value)) else None
  }

  /** A possibly missing number as a JavaScript value. */
  function NumValue(n: Option<int>): Option<JsValue> {
    if n.Some? then Some(JNum(n.value)) else None
  }

  /** `s || fallback` for a possibly missing string: only a non-empty string survives. */
  function StrOr(s: Option<string>, fallback: string): (r: string)
    ensures JStr(r) == Or(StrValue(s), JStr(fallback))
    ensures r == fallback || (s.Some? && r == s.value)
    ensures fallback != "" ==> r != ""
  {
    if s.Some? && s.value != "" then s.value else fallback
  }

  /** `n || fallback` for a possibly missing number: only a non-zero number survives. */
  function NumOr(n: Option<int>, fallback: int): (r: int)
    ensures JNum(r) == Or(NumValue(n), JNum(fallback))
    ensures r == fallback || (n.Some? && r == n.value)
    ensures fallback != 0 ==> r != 0
  {
    if n.Some? && n.value != 0 then n.value else fallback
  }
}
