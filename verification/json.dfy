/** JSON values as trees. The request body is the JSON text of such a tree
    and the server's reply may be one; the text form itself (RFC 8259) is
    not modelled, only the structure that is serialised or parsed. */
module Json {
  import opened Wrappers

  /** Objects keep their members in insertion order, as Python dicts do. */
  datatype Json =
    | Null
    | Bool(b: bool)
    | Number(n: real)
    | String(s: string)
    | Array(items: seq<Json>)
    | Object(members: seq<(string, Json)>)

  /** The member names of an object, in order. */
  function KeysOf(members: seq<(string, Json)>): seq<string>
  {
    seq(|members|, i requires 0 <= i < |members| => members[i].0)
  }

  /** The top-level keys of a value; a non-object has none. */
  function Keys(j: Json): seq<string>
  {
    if j.Object? then KeysOf(j.members) else []
  }

  /** The value of the first member called `key`, as `d.get(key)` reads it. */
  function Lookup(members: seq<(string, Json)>, key: string): (r: Option<Json>)
    ensures r.Some? <==> key in KeysOf(members)
    ensures r.Some? ==> (key, r.value) in members
    decreases |members|
  {
    if |members| == 0 then None
    else
      assert KeysOf(members) == [members[0].0] + KeysOf(members[1..]);
      if members[0].0 == key then Some(members[0].1)
      else Lookup(members[1..], key)
  }

  /** `j[key]` for an object `j`; nothing for a missing key or a non-object. */
  function Get(j: Json, key: string): (r: Option<Json>)
    ensures r.Some? <==> key in Keys(j)
  {
    if j.Object? then Lookup(j.members, key) else None
  }

  /** Decodes every item with `decode`, failing if any item fails. */
  function DecodeAll<T>(items: seq<Json>, decode: Json -> Option<T>): (r: Option<seq<T>>)
    ensures r.Some? <==> forall i :: 0 <= i < |items| ==> decode(items[i]).Some?
    ensures r.Some? ==> |r.value| == |items|
    ensures r.Some? ==> forall i :: 0 <= i < |items| ==> decode(items[i]) == Some(r.value[i])
    decreases |items|
  {
    if |items| == 0 then Some([])
    else
      match (decode(items[0]), DecodeAll(items[1..], decode))
      case (Some(x), Some(rest)) =>
        assert forall i :: 1 <= i < |items| ==> items[i] == items[1..][i - 1];
        Some([x] + rest)
      case (None, _) => None
      case (_, None) =>
        assert forall i :: 0 <= i < |items| - 1 ==> items[1..][i] == items[i + 1];
        None
  }

  function AsNumber(j: Json): Option<real>
  {
    if j.Number? then Some(j.n) else None
  }

  function AsString(j: Json): Option<string>
  {
    if j.String? then Some(j.s) else None
  }

  /** A list of floats, as `json.dumps` writes a Python list of floats. */
  function NumberArray(xs: seq<real>): Json
  {
    Array(seq(|xs|, i requires 0 <= i < |xs| => Number(xs[i])))
  }

  /** A list of strings. */
  function StringArray(xs: seq<string>): Json
  {
    Array(seq(|xs|, i requires 0 <= i < |xs| => String(xs[i])))
  }

  /** A list of rows, each a list of floats. */
  function RowsArray(rows: seq<seq<real>>): Json
  {
    Array(seq(|rows|, i requires 0 <= i < |rows| => NumberArray(rows[i])))
  }

  /** Reads back an array of numbers. */
  function AsNumbers(j: Json): Option<seq<real>>
  {
    if j.Array? then DecodeAll(j.items, AsNumber) else None
  }

  /** Reads back an array of strings. */
  function AsStrings(j: Json): Option<seq<string>>
  {
    if j.Array? then DecodeAll(j.items, AsString) else None
  }

  /** Reads back an array of rows of numbers. */
  function AsRows(j: Json): Option<seq<seq<real>>>
  {
    if j.Array? then DecodeAll(j.items, AsNumbers) else None
  }

  lemma NumbersRoundTrip(xs: seq<real>)
    ensures AsNumbers(NumberArray(xs)) == Some(xs)
  {
    var r := DecodeAll(NumberArray(xs).items, AsNumber);
    assert r.Some?;
    assert r.value == xs;
  }

  lemma StringsRoundTrip(xs: seq<string>)
    ensures AsStrings(StringArray(xs)) == Some(xs)
  {
    var r := DecodeAll(StringArray(xs).items, AsString);
    assert r.Some?;
    assert r.value == xs;
  }

  lemma RowsRoundTrip(rows: seq<seq<real>>)
    ensures AsRows(RowsArray(rows)) == Some(rows)
  {
    var items := RowsArray(rows).items;
    forall i | 0 <= i < |rows|
      ensures AsNumbers(items[i]) == Some(rows[i])
    {
      NumbersRoundTrip(rows[i]);
    }
    var r := DecodeAll(items, AsNumbers);
    assert r.Some?;
    assert r.value == rows;
  }
}
