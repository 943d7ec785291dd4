/** The wire form of a query: an abstract JSON value, plus the generic
    behaviour of a derived struct serializer whose fields may be skipped. */
module Wire {
  import opened Wrappers

  /** A JSON value. Objects keep their entries in emission order; numbers are
      split into integers and (exact) reals, as the encoder keeps integer and
      floating-point primitives apart on the wire. */
  datatype Json =
    | JNull
    | JBool(b: bool)
    | JInt(i: int)
    | JReal(r: real)
    | JStr(s: string)
    | JObj(entries: seq<(string, Json)>)

  /** The keys of a list of entries, in order. */
  function Keys<T>(entries: seq<(string, T)>): (ks: seq<string>)
    ensures |ks| == |entries|
    ensures forall i :: 0 <= i < |entries| ==> ks[i] == entries[i].0
  {
    if |entries| == 0 then [] else [entries[0].0] + Keys(entries[1..])
  }

  /** No key occurs twice. */
  predicate Distinct(ks: seq<string>) {
    forall i, j :: 0 <= i < j < |ks| ==> ks[i] != ks[j]
  }

  /** The value bound to `key`, searching from the front. */
  function Get<T>(entries: seq<(string, T)>, key: string): (r: Option<T>)
    ensures r.Some? <==> key in Keys(entries)
    ensures r.Some? ==> (key, r.value) in entries
  {
    if |entries| == 0 then None
    else if entries[0].0 == key then Some(entries[0].1)
    else Get(entries[1..], key)
  }

  /** The one entry of a single-entry object, if `j` is one. */
  function Sole(j: Json): (r: Option<(string, Json)>)
    ensures r.Some? <==> j.JObj? && |j.entries| == 1
    ensures r.Some? ==> j == JObj([r.value])
  {
    if j.JObj? && |j.entries| == 1 then Some(j.entries[0]) else None
  }

  /** The member under `key` of a single-entry object whose one key is `key`. */
  function Single(j: Json, key: string): (r: Option<Json>)
    ensures r.Some? <==> Sole(j).Some? && Sole(j).value.0 == key
    ensures r.Some? ==> j == JObj([(key, r.value)])
  {
    match Sole(j)
    case Some((k, v)) => if k == key then Some(v) else None
    case None => None
  }

  /** The entries one field contributes: its key and value, or nothing when
      the field is skipped. */
  function Emitted(key: string, o: Option<Json>): (r: seq<(string, Json)>)
    ensures |r| <= 1
    ensures r == [] <==> o.None?
  {
    match o
    case None => []
    case Some(v) => [(key, v)]
  }

  /** The object a derived serializer emits for a struct: each field in
      declaration order under its wire key, except the fields whose skip
      predicate held, given here as `None`. A struct never declares two fields
      with one wire key, hence the requirement. */
  function EmitFields(fields: seq<(string, Option<Json>)>): (r: seq<(string, Json)>)
    requires Distinct(Keys(fields))
    ensures Distinct(Keys(r))
    ensures forall k :: k in Keys(r) ==> k in Keys(fields)
    ensures forall i :: 0 <= i < |fields| ==> Get(r, fields[i].0) == fields[i].1
  {
    if |fields| == 0 then []
    else
      var rest := EmitFields(fields[1..]);
      assert forall i :: 1 <= i < |fields| ==> fields[i] == fields[1..][i - 1];
      assert fields[0].0 !in Keys(fields[1..]);
      var head := Emitted(fields[0].0, fields[0].1);
      assert head + rest == if fields[0].1.None? then rest else [(fields[0].0, fields[0].1.value)] + rest;
      head + rest
  }

  /** A derived serializer keeps declaration order: the first field's entry,
      unless skipped, comes ahead of everything the later fields emit. */
  lemma EmitFieldsCons(f: (string, Option<Json>), rest: seq<(string, Option<Json>)>)
    requires Distinct(Keys([f] + rest))
    ensures Distinct(Keys(rest))
    ensures EmitFields([f] + rest)
         == Emitted(f.0, f.1) + EmitFields(rest)
  {
    var fs := [f] + rest;
    assert fs[1..] == rest;
    assert forall i, j :: 0 <= i < j < |rest| ==> Keys(rest)[i] == Keys(fs)[i + 1] && Keys(rest)[j] == Keys(fs)[j + 1];
  }
}
