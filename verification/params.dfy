/** The parameter types a term query embeds: the optional scalar term value,
    the relevance boost, and the skip predicate each of them answers. */
module Params {
  import opened Wrappers
  import opened Wire

  /** A term value: absent, or one primitive. An absent value and a present
      default (`Int(0)`, `Str("")`, `Bool(false)`) are different states. */
  datatype OptionalScalar =
    | Absent
    | Bool(b: bool)
    | Int(i: int)
    | Float(f: real)
    | Str(s: string)

  /** A relevance weight. The source stores a floating-point number; the model
      keeps it exact. */
  type Boost = real

  /** Skip predicate of an optional scalar: the term query as a whole is
      skipped exactly when its value is absent. Inside the parameter bag the
      value is never omitted; an absent one is written as `null`. */
  predicate ScalarShouldSkip(v: OptionalScalar) {
    v.Absent?
  }

  /** Skip predicate of an optional attribute slot: omit it exactly when unset. */
  predicate SlotShouldSkip<T>(o: Option<T>) {
    o.None?
  }

  /** The wire form of a term value: the primitive itself, or `null` when absent. */
  function ScalarToJson(v: OptionalScalar): (j: Json)
    ensures j.JNull? <==> ScalarShouldSkip(v)
    ensures ScalarFromJson(j) == Some(v)
  {
    match v
    case Absent => JNull
    case Bool(b) => JBool(b)
    case Int(i) => JInt(i)
    case Float(f) => JReal(f)
    case Str(s) => JStr(s)
  }

  /** Reads a term value back from its wire form; objects are not scalars. */
  function ScalarFromJson(j: Json): Option<OptionalScalar> {
    match j
    case JNull => Some(Absent)
    case JBool(b) => Some(Bool(b))
    case JInt(i) => Some(Int(i))
    case JReal(f) => Some(Float(f))
    case JStr(s) => Some(Str(s))
    case JObj(_) => None
  }

  /** Distinct term values have distinct wire forms. */
  lemma ScalarToJsonInjective(v: OptionalScalar, w: OptionalScalar)
    ensures ScalarToJson(v) == ScalarToJson(w) <==> v == w
  {
    if ScalarToJson(v) == ScalarToJson(w) {
      assert Some(v) == ScalarFromJson(ScalarToJson(v)) == Some(w);
    }
  }
}
