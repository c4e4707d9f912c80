/**
 * JSON values as Python's `json` module produces them, Python's `==` on
 * those values, and the three JSON Schema keywords the fixed schemas use.
 */
module Json {

  /** A decoded JSON value. An object is a Python dict; its key order only
      affects log messages, so it is a map here. */
  datatype Json =
    | JNull
    | JBool(b: bool)
    | JInt(i: int)
    | JFloat(r: real)
    | JString(s: string)
    | JArray(items: seq<Json>)
    | JObject(fields: map<string, Json>)

  /** `bool`, `int` and `float` compare by numeric value in Python. */
  predicate IsNumeric(j: Json)
  {
    j.JBool? || j.JInt? || j.JFloat?
  }

  function NumericValue(j: Json): real
    requires IsNumeric(j)
  {
    match j
    case JBool(b) => if b then 1.0 else 0.0
    case JInt(i) => i as real
    case JFloat(r) => r
  }

  /** Python's `==` on decoded JSON values: numbers (and booleans) compare by
      value across types, lists element-wise, dicts key-wise regardless of order. */
  predicate PyEq(a: Json, b: Json): (r: bool)
    ensures r && IsNumeric(a) ==> IsNumeric(b) && NumericValue(a) == NumericValue(b)
    ensures r && (a.JNull? || a.JString?) ==> b == a
    ensures r && a.JArray? ==> b.JArray? && |b.items| == |a.items|
    ensures r && a.JObject? ==> b.JObject? && b.fields.Keys == a.fields.Keys
  {
    if IsNumeric(a) || IsNumeric(b) then
      IsNumeric(a) && IsNumeric(b) && NumericValue(a) == NumericValue(b)
    else
      match (a, b)
      case (JNull, JNull) => true
      case (JString(x), JString(y)) => x == y
      case (JArray(xs), JArray(ys)) =>
        |xs| == |ys| && forall i :: 0 <= i < |xs| ==> PyEq(xs[i], ys[i])
      case (JObject(f), JObject(g)) =>
        f.Keys == g.Keys && forall k :: k in f ==> PyEq(f[k], g[k])
      case _ => false
  }

  /** Every value equals itself. */
  lemma {:induction false} PyEqReflexive(a: Json)
    ensures PyEq(a, a)
  {
    match a
    case JArray(xs) =>
      forall i | 0 <= i < |xs| ensures PyEq(xs[i], xs[i]) {
        PyEqReflexive(xs[i]);
      }
    case JObject(f) =>
      forall k | k in f ensures PyEq(f[k], f[k]) {
        PyEqReflexive(f[k]);
      }
    case _ =>
  }

  /** Equality is symmetric. */
  lemma {:induction false} PyEqSymmetric(a: Json, b: Json)
    requires PyEq(a, b)
    ensures PyEq(b, a)
  {
    if !IsNumeric(a) && !IsNumeric(b) {
      match (a, b)
      case (JArray(xs), JArray(ys)) =>
        forall i | 0 <= i < |ys| ensures PyEq(ys[i], xs[i]) {
          PyEqSymmetric(xs[i], ys[i]);
        }
      case (JObject(f), JObject(g)) =>
        forall k | k in g ensures PyEq(g[k], f[k]) {
          PyEqSymmetric(f[k], g[k]);
        }
      case _ =>
    }
  }

  /** Python equality is coarser than structural equality: `True == 1 == 1.0`. */
  lemma PyEqCoarserThanIdentity()
    ensures PyEq(JBool(true), JInt(1)) && JBool(true) != JInt(1)
    ensures PyEq(JInt(1), JFloat(1.0)) && JInt(1) != JFloat(1.0)
  {
  }

  /** The `type` names of JSON Schema the fixed schemas use. */
  datatype SchemaType = TObject | TString | TInteger

  /** The `type` keyword (section 6.1.1 of JSON Schema Validation, draft 2020-12)
      as Python's `jsonschema` applies it: "integer" is any number with a zero
      fractional part, and a boolean is never an integer. */
  predicate HasType(j: Json, t: SchemaType): (r: bool)
    ensures t == TInteger && r ==> IsNumeric(j) && !j.JBool? && NumericValue(j).Floor as real == NumericValue(j)
    ensures t == TInteger && j.JInt? ==> r
    ensures t == TInteger && j.JFloat? && j.r.Floor as real == j.r ==> r
  {
    match t
    case TObject => j.JObject?
    case TString => j.JString?
    case TInteger => j.JInt? || (j.JFloat? && j.r.Floor as real == j.r)
  }

  /** The `properties` keyword for one property (section 10.3.2.1 of JSON Schema
      Core, draft 2020-12): constrains the member only when it is present. */
  predicate PropertyHasType(fields: map<string, Json>, key: string, t: SchemaType)
  {
    key in fields ==> HasType(fields[key], t)
  }

  /** The `required` keyword (section 6.5.3 of JSON Schema Validation, draft 2020-12). */
  predicate HasRequired(fields: map<string, Json>, keys: set<string>)
  {
    keys <= fields.Keys
  }
}
