/** The `term` query: a field name and an inner parameter bag, built with a
    constructor and two fluent setters, skipped when its value is absent, and
    serialized as `{"term": {<field>: <inner bag>}}`. */
module TermQueries {
  import opened Wrappers
  import opened Wire
  import opened Params

  /** The inner parameter bag: the term value and the two optional
      conveniences. */
  datatype Inner = Inner(value: OptionalScalar, boost: Option<Boost>, name: Option<string>)

  /** A term query: the field searched and its parameter bag. */
  datatype TermQuery = TermQuery(field: string, inner: Inner)

  /** Wire keys of the inner bag, in declaration order. */
  const ValueKey: string := "value"
  const BoostKey: string := "boost"
  const NameKey: string := "_name"
  const Tag: string := "term"

  /** The inner bag's wire keys name nothing else. */
  predicate IsInnerKey(k: string) {
    k == ValueKey || k == BoostKey || k == NameKey
  }

  // ----- Construction -----

  /** `TermQuery::new`: every input is accepted and stored as given, and both
      conveniences start unset. */
  function New(field: string, value: OptionalScalar): (q: TermQuery)
    ensures q.field == field && q.inner.value == value
    ensures q.inner.boost.None? && q.inner.name.None?
  {
    TermQuery(field, Inner(value, None, None))
  }

  /** `Query::term`: the same query `New` builds. */
  function Term(field: string, value: OptionalScalar): (q: TermQuery)
    ensures q == New(field, value)
    ensures q.field == field && q.inner.value == value
  {
    New(field, value)
  }

  // ----- Shared conveniences -----

  /** `boost`: sets the boost slot, overwriting any earlier boost. */
  function SetBoost(q: TermQuery, b: Boost): (r: TermQuery)
    ensures r.inner.boost == Some(b)
    ensures r.field == q.field && r.inner.value == q.inner.value && r.inner.name == q.inner.name
  {
    q.(inner := q.inner.(boost := Some(b)))
  }

  /** `name`: sets the `_name` slot, overwriting any earlier name. */
  function SetName(q: TermQuery, n: string): (r: TermQuery)
    ensures r.inner.name == Some(n)
    ensures r.field == q.field && r.inner.value == q.inner.value && r.inner.boost == q.inner.boost
  {
    q.(inner := q.inner.(name := Some(n)))
  }

  // ----- Skip predicate -----

  /** A term query is omitted as a whole exactly when its value is absent,
      that is, exactly when its wire value would be `null`. */
  predicate ShouldSkip(q: TermQuery)
    ensures ShouldSkip(q) <==> q.inner.value.Absent?
    ensures ShouldSkip(q) <==> Get(SerializeInner(q.inner).entries, ValueKey) == Some(JNull)
  {
    ScalarShouldSkip(q.inner.value)
  }

  // ----- Serialization -----

  /** The boost field as the derived serializer sees it: skipped when unset. */
  function BoostField(o: Option<Boost>): (f: Option<Json>)
    ensures f.Some? <==> o.Some?
  {
    if SlotShouldSkip(o) then None else Some(JReal(o.value))
  }

  /** The `_name` field as the derived serializer sees it: skipped when unset. */
  function NameField(o: Option<string>): (f: Option<Json>)
    ensures f.Some? <==> o.Some?
  {
    if SlotShouldSkip(o) then None else Some(JStr(o.value))
  }

  /** The inner bag's fields as the derived serializer sees them: `value`
      always, the two conveniences unless their slot is unset. */
  function InnerFields(inner: Inner): (fs: seq<(string, Option<Json>)>)
    ensures Distinct(Keys(fs))
  {
    [ (ValueKey, Some(ScalarToJson(inner.value))),
      (BoostKey, BoostField(inner.boost)),
      (NameKey, NameField(inner.name)) ]
  }

  /** The serialized inner bag: always `value`; `boost` and `_name` exactly
      when set, carrying the stored value; no other key, none twice. */
  function SerializeInner(inner: Inner): (j: Json)
    ensures j.JObj? && Distinct(Keys(j.entries))
    ensures Get(j.entries, ValueKey) == Some(ScalarToJson(inner.value))
    ensures Get(j.entries, BoostKey).Some? <==> inner.boost.Some?
    ensures inner.boost.Some? ==> Get(j.entries, BoostKey) == Some(JReal(inner.boost.value))
    ensures Get(j.entries, NameKey).Some? <==> inner.name.Some?
    ensures inner.name.Some? ==> Get(j.entries, NameKey) == Some(JStr(inner.name.value))
    ensures forall k :: k in Keys(j.entries) ==> IsInnerKey(k)
  {
    var fs := InnerFields(inner);
    assert fs[0].0 == ValueKey && fs[1].0 == BoostKey && fs[2].0 == NameKey;
    JObj(EmitFields(fs))
  }

  /** The serialized query: a one-entry object under `"term"` whose member is
      a one-entry object from the field name to the serialized inner bag. */
  function Serialize(q: TermQuery): (j: Json)
    ensures Single(j, Tag).Some?
    ensures Sole(Single(j, Tag).value) == Some((q.field, SerializeInner(q.inner)))
  {
    JObj([(Tag, JObj([(q.field, SerializeInner(q.inner))]))])
  }

  // ----- Reading the wire form back -----

  /** Reads an optional convenience slot: a missing key is an unset slot. */
  function ParseSlot<T>(o: Option<Json>, read: Json -> Option<T>): Option<Option<T>> {
    match o
    case None => Some(None)
    case Some(j) => var t :- read(j); Some(Some(t))
  }

  function ReadBoost(j: Json): Option<Boost> {
    if j.JReal? then Some(j.r) else None
  }

  function ReadName(j: Json): Option<string> {
    if j.JStr? then Some(j.s) else None
  }

  /** Reads an inner bag: an object with distinct keys drawn from the three
      wire keys, holding `value`. */
  function ParseInner(j: Json): Option<Inner> {
    if !j.JObj? || !Distinct(Keys(j.entries))
       || exists k :: k in Keys(j.entries) && !IsInnerKey(k)
    then None
    else
      var vj :- Get(j.entries, ValueKey);
      var v :- ScalarFromJson(vj);
      var b :- ParseSlot(Get(j.entries, BoostKey), ReadBoost);
      var n :- ParseSlot(Get(j.entries, NameKey), ReadName);
      Some(Inner(v, b, n))
  }

  /** Reads a term query from its wire shape. */
  function Parse(j: Json): Option<TermQuery> {
    var t :- Single(j, Tag);
    var (field, ij) :- Sole(t);
    var inner :- ParseInner(ij);
    Some(TermQuery(field, inner))
  }

  // ----- Properties -----

  /** The inner bag's wire form loses nothing: reading it back gives the bag. */
  lemma InnerRoundTrip(inner: Inner)
    ensures ParseInner(SerializeInner(inner)) == Some(inner)
  {
    var j := SerializeInner(inner);
    assert !exists k :: k in Keys(j.entries) && !IsInnerKey(k);
  }

  /** Serialization loses nothing: the field, the value and both slots are all
      recoverable from the output. */
  lemma RoundTrip(q: TermQuery)
    ensures Parse(Serialize(q)) == Some(q)
  {
    InnerRoundTrip(q.inner);
  }

  /** Two queries serialize alike exactly when they are equal. */
  lemma SerializeInjective(q1: TermQuery, q2: TermQuery)
    ensures Serialize(q1) == Serialize(q2) <==> q1 == q2
  {
    if Serialize(q1) == Serialize(q2) {
      RoundTrip(q1);
      RoundTrip(q2);
    }
  }

  /** The inner bag's entries come out in declaration order: `value`, then
      `boost` if set, then `_name` if set. */
  lemma InnerEntryOrder(inner: Inner)
    ensures SerializeInner(inner).entries
         == [(ValueKey, ScalarToJson(inner.value))] + Emitted(BoostKey, BoostField(inner.boost)) + Emitted(NameKey, NameField(inner.name))
  {
    var fs := InnerFields(inner);
    var f0, f1, f2 := fs[0], fs[1], fs[2];
    assert fs == [f0] + ([f1] + ([f2] + []));
    EmitFieldsCons(f2, []);
    EmitFieldsCons(f1, [f2]);
    EmitFieldsCons(f0, [f1, f2]);
  }

  /** A freshly built query serializes to `{"term": {field: {"value": v}}}`
      with no convenience key, for every field (the empty one included) and
      every value. */
  lemma NewSerializesBare(field: string, value: OptionalScalar)
    ensures Serialize(New(field, value))
         == JObj([(Tag, JObj([(field, JObj([(ValueKey, ScalarToJson(value))]))]))])
  {
    InnerEntryOrder(New(field, value).inner);
  }

  /** A query built with `new` and given both conveniences serializes with
      all three inner keys, in declaration order, carrying the stored values. */
  lemma FullSerializes(field: string, value: OptionalScalar, b: Boost, n: string)
    ensures Serialize(SetName(SetBoost(New(field, value), b), n))
         == JObj([(Tag, JObj([(field, JObj([
              (ValueKey, ScalarToJson(value)), (BoostKey, JReal(b)), (NameKey, JStr(n))]))]))])
  {
    var inner := Inner(value, Some(b), Some(n));
    assert SetName(SetBoost(New(field, value), b), n) == TermQuery(field, inner);
    InnerEntryOrder(inner);
    var e := [(ValueKey, ScalarToJson(value)), (BoostKey, JReal(b)), (NameKey, JStr(n))];
    assert [(ValueKey, ScalarToJson(value))] + Emitted(BoostKey, BoostField(inner.boost)) + Emitted(NameKey, NameField(inner.name)) == e;
  }

  /** The skip decision reads the value alone: field, boost and name never
      change it. */
  lemma ShouldSkipOnlyValue(q1: TermQuery, q2: TermQuery)
    requires q1.inner.value == q2.inner.value
    ensures ShouldSkip(q1) == ShouldSkip(q2)
  {
  }

  /** A query skips exactly when it was built with an absent value, whatever
      conveniences are attached afterwards. */
  lemma ShouldSkipAfterBuild(field: string, value: OptionalScalar, b: Boost, n: string)
    ensures ShouldSkip(New(field, value)) <==> value.Absent?
    ensures ShouldSkip(SetName(SetBoost(New(field, value), b), n)) <==> value.Absent?
  {
  }

  /** The setters touch disjoint slots, so attaching order does not matter,
      for the query and hence for its output. */
  lemma SettersCommute(q: TermQuery, b: Boost, n: string)
    ensures SetName(SetBoost(q, b), n) == SetBoost(SetName(q, n), b)
    ensures Serialize(SetName(SetBoost(q, b), n)) == Serialize(SetBoost(SetName(q, n), b))
  {
  }

  /** A later call of a setter replaces the earlier one's value. */
  lemma SettersOverwrite(q: TermQuery, b1: Boost, b2: Boost, n1: string, n2: string)
    ensures SetBoost(SetBoost(q, b1), b2) == SetBoost(q, b2)
    ensures SetName(SetName(q, n1), n2) == SetName(q, n2)
  {
  }

  /** The `with_required_fields` scenario: `new("test", 123)`. */
  lemma ExampleRequiredFields()
    ensures Serialize(New("test", Int(123)))
         == JObj([("term", JObj([("test", JObj([("value", JInt(123))]))]))])
  {
    NewSerializesBare("test", Int(123));
  }

  /** The `with_all_fields` scenario: `new("test", 123).boost(2).name("test")`,
      the integer boost stored as the real 2.0. */
  lemma ExampleAllFields()
    ensures Serialize(SetName(SetBoost(New("test", Int(123)), 2.0), "test"))
         == JObj([("term", JObj([("test", JObj([
              ("value", JInt(123)), ("boost", JReal(2.0)), ("_name", JStr("test"))]))]))])
  {
    FullSerializes("test", Int(123), 2.0, "test");
  }
}
