# Term query model

A Dafny model of the `term` query of a typed Elasticsearch Query DSL builder
(elasticsearch-dsl-rs). A `TermQuery` holds the name of the document field to
search and an inner parameter bag. The bag holds the term value, which may be
absent, an optional relevance `boost` and an optional query name `_name`. The
model covers four things:

- how a query is built: `TermQuery::new`, `Query::term`, and the `boost` and
  `name` setters;
- when the whole query is skipped: exactly when its value is absent;
- how it is serialized to the nested wire shape
  `{"term": {<field>: {"value": v, ["boost": b], ["_name": n]}}}`;
- that, in the model, no information is lost on the way: a reader
  (`TermQueries.Parse`) recovers every query from its wire form.

Modules:

- `Wrappers`: the `Option` datatype.
- `Wire`: an abstract JSON value with objects as ordered entry lists.
  `EmitFields` is the behaviour of a derived struct serializer whose fields
  carry a skip-if predicate.
- `Params`: the optional scalar term value, the boost type, the two skip
  predicates, and the scalar's wire form with its reader. `SlotShouldSkip`
  models the `Option` skip predicate named by the `skip_serializing_if`
  attributes at term_query.rs lines 54 and 57. `ScalarShouldSkip` models the
  value's skip predicate that `should_skip` calls at line 94.
- `TermQueries`: the query, its builders, its skip rule, its serializer, the
  reader, and the lemmas about all of these. `InnerFields`, with `BoostField`
  and `NameField`, is the field list the derived serializer of `Inner` walks
  (term_query.rs lines 50-59): `value` always, each convenience skipped when
  its slot is unset.

Serialization is a pure function. Serializing the same value twice therefore
always gives the same output, and asking whether to skip it gives the same
answer every time.

## Model

| member | source | states |
|---|---|---|
| `Wire.EmitFields` | src/search/queries/term_query.rs:50-59 | A derived serializer with skip-if fields emits an object with distinct keys. Every key comes from a field. Each field's key looks up exactly that field's value, and a skipped field's key is absent. |
| `Wire.EmitFieldsCons` | src/search/queries/term_query.rs:50-59 | A derived serializer keeps declaration order. The first field's entry, unless skipped, comes before everything the later fields emit. |
| `Params.ScalarToJson` | src/search/queries/term_query.rs:52 | The term value's wire form is `null` exactly when the value is absent. Reading it back gives the same value, so an absent value and a present default stay distinct. |
| `Params.ScalarToJsonInjective` | src/search/queries/term_query.rs:52 | Two term values have the same wire form if and only if they are equal. |
| `TermQueries.New` | src/search/queries/term_query.rs:78-87 | `new` stores the field and the value as given, with no check or normalisation. Boost and name both start unset. |
| `TermQueries.Term` | src/search/queries/term_query.rs:67-69 | `Query::term(f, v)` is the same query as `TermQuery::new(f, v)`. |
| `TermQueries.SetBoost` | src/search/queries/term_query.rs:89 | `boost` sets the boost slot to the given weight. Field, value and name are unchanged. |
| `TermQueries.SetName` | src/search/queries/term_query.rs:89 | `name` sets the `_name` slot to the given string. Field, value and boost are unchanged. |
| `TermQueries.ShouldSkip` | src/search/queries/term_query.rs:92-96 | A term query is skipped exactly when its value is absent, which is exactly when its wire `value` would be `null`. |
| `TermQueries.SerializeInner` | src/search/queries/term_query.rs:50-59 | The inner bag is an object with distinct keys. It always holds `value`. It holds `boost` exactly when boost is set and `_name` exactly when name is set, each with the stored value. It has no other key. |
| `TermQueries.Serialize` | src/search/queries/term_query.rs:98-110 | The output is a one-entry object under `"term"`. Its member is a one-entry object from the query's field name to the serialized inner bag. |
| `TermQueries.InnerEntryOrder` | src/search/queries/term_query.rs:50-59 | The inner bag's entries come in declaration order: `value`, then `boost` if set, then `_name` if set. |
| `TermQueries.InnerRoundTrip` | src/search/queries/term_query.rs:50-59 | Reading a serialized inner bag back gives the bag: value, boost and name all survive. |
| `TermQueries.RoundTrip` | src/search/queries/term_query.rs:98-110 | Reading a serialized query back gives the query, field name included. |
| `TermQueries.SerializeInjective` | src/search/queries/term_query.rs:98-110 | Two queries serialize to the same output if and only if they are equal. |
| `TermQueries.NewSerializesBare` | src/search/queries/term_query.rs:78-110 | For every field, including the empty one, and every value, `new(f, v)` serializes to `{"term": {f: {"value": v}}}` with no convenience key. |
| `TermQueries.FullSerializes` | src/search/queries/term_query.rs:128-139 | For every field and value, `new(f, v).boost(b).name(n)` serializes to `{"term": {f: {"value": v, "boost": b, "_name": n}}}`. |
| `TermQueries.ShouldSkipOnlyValue` | src/search/queries/term_query.rs:92-96 | The skip decision depends on the value alone. Queries that share a value agree on skipping, whatever their field, boost or name. |
| `TermQueries.ShouldSkipAfterBuild` | src/search/queries/term_query.rs:78-96 | A query built with `new` skips exactly when its value is absent. This still holds after boost and name are attached. |
| `TermQueries.SettersCommute` | src/search/queries/term_query.rs:89 | `.boost(b).name(n)` and `.name(n).boost(b)` give equal queries and equal output. |
| `TermQueries.SettersOverwrite` | src/search/queries/term_query.rs:89 | Calling a setter again replaces the earlier value: the last call wins. |
| `TermQueries.ExampleRequiredFields` | src/search/queries/term_query.rs:116-126 | `new("test", 123)` serializes to `{"term":{"test":{"value":123}}}`. |
| `TermQueries.ExampleAllFields` | src/search/queries/term_query.rs:128-139 | `new("test", 123).boost(2).name("test")` serializes to `{"term":{"test":{"value":123,"boost":2.0,"_name":"test"}}}`. |

## Left out

- The `with_none` test (src/search/queries/term_query.rs:141-144) is not modelled. It needs the boolean query and its clause filtering, and those are not part of this model. Only the term-level fact it relies on is kept: an absent value makes `ShouldSkip` true.
- The serde machinery is not modelled: `Serializer`, `SerializeMap`, the `Result` error paths and the `HashMap`. The output is an abstract `Json` value, and rendering it as JSON text is not modelled. The `"term"` member has a single entry, so the `HashMap`'s iteration order cannot matter.
- Boost is kept as an exact `real`. The source's floating-point storage, its rounding, and the rendering of the integer `2` as `2.0` are not modelled. The model does keep boost on the floating-point side of the wire (`JReal`), apart from integer scalars (`JInt`).
- `OptionalScalar` is reduced to `Absent` plus four primitive cases: boolean, integer, real and string. Its `Into` conversions from every primitive type are defined elsewhere in the crate and are not part of this model. Integer widths are unbounded here. Floats are reduced to exact `real`s, as is boost. In the source, a non-finite float term value renders as `null` like an absent one. So `Params.ScalarToJson`'s "`null` exactly when absent", and the lossless round trip, hold of the model only.
- The `ShouldSkip` impls are defined in `crate::util`, outside the modelled file. The model assumes them: `Params.ScalarShouldSkip` holds exactly for `Absent`, and `Params.SlotShouldSkip` holds exactly for `None`. If the real impl for `Option<String>` also skipped, say, blank strings, then `SerializeInner`'s "`_name` exactly when set" would not hold of the source.
- The serialized form of an absent `OptionalScalar` is defined outside this file. The model renders it as `null`. A query whose value is absent is skipped by any enclosing container before serialization.
- The body of the `add_boost_and_name!` macro is not part of this model. Only its observable effect is modelled: each setter fills its own `Option` slot.
- `TermQueries.Parse` and its helpers have no counterpart in the source. The library never reads queries back. The reader exists only to state and prove that serialization loses nothing.
