/** JSON values, and the insertion-ordered objects executors read their inputs from. */
module Values {
  import opened Wrappers

  /** An object's members in insertion order. */
  type Fields = seq<(string, Json)>

  datatype Json =
    | Null
    | Bool(flag: bool)
    | Number(number: int)
    | Text(text: string)
    | Array(items: seq<Json>)
    | Object(fields: Fields)

  function Get(fields: Fields, key: string): (r: Option<Json>)
    ensures r.Some? <==> exists i :: 0 <= i < |fields| && fields[i].0 == key
  {
    if fields == [] then None
    else if fields[0].0 == key then Some(fields[0].1)
    else Get(fields[1..], key)
  }

  /** A present key keeps its position and takes the new value; an absent one is appended. */
  function Insert(fields: Fields, key: string, value: Json): (r: Fields)
    ensures Get(r, key) == Some(value)
    ensures forall other :: other != key ==> Get(r, other) == Get(fields, other)
    ensures |fields| <= |r| && forall i :: 0 <= i < |fields| ==> r[i].0 == fields[i].0
  {
    if fields == [] then [(key, value)]
    else if fields[0].0 == key then [(key, value)] + fields[1..]
    else [fields[0]] + Insert(fields[1..], key, value)
  }

  /** Each element once, at its first position. */
  function Dedup(items: seq<string>): seq<string> {
    if items == [] then []
    else
      var front := Dedup(items[..|items| - 1]);
      var last := items[|items| - 1];
      if last in front then front else front + [last]
  }

  lemma {:induction false} DedupKeeps(items: seq<string>)
    ensures forall x :: x in Dedup(items) <==> x in items
    ensures forall i, j :: 0 <= i < j < |Dedup(items)| ==> Dedup(items)[i] != Dedup(items)[j]
  {
    if items != [] {
      var front, last := items[..|items| - 1], items[|items| - 1];
      DedupKeeps(front);
      assert items == front + [last];
    }
  }
}
