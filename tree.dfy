/**
 * The stubbed database: top-level collection names map to arrays of document
 * records; a record's `_collections` field, when present, maps sub-collection
 * names to arrays of records in the same shape.
 */
module Tree {
  import opened Wrappers
  import opened Values

  /**
   * A document record: its plain fields (including `id`) and its optional
   * `_collections`. A record's `_collections` property is always held in
   * `collections`, never as a `"_collections"` entry of `fields`, so each
   * JavaScript record has exactly one encoding.
   */
  datatype Record = Record(fields: map<string, Value>, collections: Children)

  /** The `_collections` field of a record: absent, or a mapping of named collections. */
  datatype Children = NoChildren | Children(node: Node)

  /** An array of document records. */
  datatype Collection = Collection(records: seq<Record>)

  /** A mapping from collection names to collections: the database itself or a `_collections` object. */
  type Node = map<string, Collection>

  /** `record.id`, or `undefined` when the record has none. */
  function IdOf(r: Record): Value
  {
    if "id" in r.fields then r.fields["id"] else Undefined
  }

  /** `node[key] || []`: the records of the named collection, or none. */
  function Lookup(c: Node, key: string): seq<Record>
  {
    if key in c then c[key].records else []
  }

  /** `records.find(record => record.id === id)`: the first record whose id is `id`. */
  function Find(rs: seq<Record>, id: Value): Option<Record>
  {
    if rs == [] then None
    else if IdOf(rs[0]) == id then Some(rs[0])
    else Find(rs[1..], id)
  }

  /** `Find` yields nothing exactly when no record has the id, and otherwise the first record that has it. */
  lemma {:induction false} FindFirst(rs: seq<Record>, id: Value)
    ensures Find(rs, id).None? <==> forall i :: 0 <= i < |rs| ==> IdOf(rs[i]) != id
    ensures Find(rs, id).Some? ==> exists i :: FirstWithId(rs, i, id) && rs[i] == Find(rs, id).value
  {
    if rs != [] {
      if IdOf(rs[0]) == id {
        assert FirstWithId(rs, 0, id);
      } else {
        FindFirst(rs[1..], id);
        assert forall i :: 1 <= i < |rs| ==> rs[i] == rs[1..][i - 1];
        assert forall i :: 0 <= i < |rs| - 1 && FirstWithId(rs[1..], i, id) ==> FirstWithId(rs, i + 1, id);
      }
    }
  }

  /** `rs[i]` has id `id` and no record before it does. */
  ghost predicate FirstWithId(rs: seq<Record>, i: int, id: Value)
  {
    0 <= i < |rs| && IdOf(rs[i]) == id && forall j :: 0 <= j < i ==> IdOf(rs[j]) != id
  }
}
