/** Parsed JSON values as a route handler receives them from `request.json()`, and
    the few JavaScript operations the handlers apply to them. JSON numbers are kept
    as mathematical reals so that an integer check means something. */
module Json {
  import opened Common

  datatype Json =
    | JNull
    | JBool(b: bool)
    | JNum(n: real)
    | JStr(s: string)
    | JArr(items: seq<Json>)
    | JObj(fields: map<string, Json>)

  /** `o[key]` on a value that is not null; `None` is `undefined`. Only objects have
      own properties here (no `length` or index lookups on strings and arrays). */
  function Get(j: Json, key: string): (r: Option<Json>)
    ensures r.Some? ==> j.JObj? && key in j.fields && r.value == j.fields[key]
  {
    if j.JObj? && key in j.fields then Some(j.fields[key]) else None
  }

  /** `Number.isInteger(n)` for a finite number. */
  predicate IsInteger(n: real) {
    n.Floor as real == n
  }

  /** JavaScript truthiness of a possibly undefined value. */
  predicate Truthy(v: Option<Json>) {
    match v
    case None => false
    case Some(JNull) => false
    case Some(JBool(b)) => b
    case Some(JNum(n)) => n != 0.0
    case Some(JStr(s)) => s != ""
    case Some(_) => true
  }
}

/** The checks of the `zod` schema library used by the storefront's validators, each
    applied to the value a schema key finds in the object (`None` when the key is
    absent). A schema accepts an object exactly when every key's check holds; keys
    the schema does not name are ignored. */
module Zod {
  import opened Common
  import opened Json

  /** `z.string().min(lo)`, followed by `.max(hi)` when `hi` is given. */
  predicate StringIn(v: Option<Json>, lo: nat, hi: Option<nat>) {
    v.Some? && v.value.JStr? && lo <= |v.value.s|
    && (hi.Some? ==> |v.value.s| <= hi.value)
  }

  /** The same check followed by `.optional()`: the key may be absent, but a
      present value (even `null`) must pass. */
  predicate OptionalStringIn(v: Option<Json>, hi: Option<nat>) {
    v.None? || StringIn(v, 0, hi)
  }

  /** `z.number().int().positive()` */
  predicate PositiveInt(v: Option<Json>) {
    v.Some? && v.value.JNum? && IsInteger(v.value.n) && v.value.n > 0.0
  }

  /** `z.number().int().min(lo)` */
  predicate IntAtLeast(v: Option<Json>, lo: int) {
    v.Some? && v.value.JNum? && IsInteger(v.value.n) && v.value.n >= lo as real
  }

  /** `z.number().positive()` */
  predicate PositiveNumber(v: Option<Json>) {
    v.Some? && v.value.JNum? && v.value.n > 0.0
  }

  /** `z.number().min(lo)` */
  predicate NumberAtLeast(v: Option<Json>, lo: int) {
    v.Some? && v.value.JNum? && v.value.n >= lo as real
  }

  /** `z.boolean().refine(v => v === true)` */
  predicate IsTrue(v: Option<Json>) {
    v == Some(JBool(true))
  }

  /** `z.string().email()` with the library's address format passed in as `isEmail`. */
  predicate EmailString(v: Option<Json>, isEmail: string -> bool) {
    v.Some? && v.value.JStr? && isEmail(v.value.s)
  }

  /** The string held by a value that passed one of the string checks. */
  function Str(v: Option<Json>): string
    requires v.Some? && v.value.JStr?
  {
    v.value.s
  }

  /** An optional string key after validation: `None` when absent. */
  function OptStr(v: Option<Json>): Option<string>
    requires v.None? || v.value.JStr?
  {
    if v.None? then None else Some(v.value.s)
  }
}
