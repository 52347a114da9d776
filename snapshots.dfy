/**
 * The read results the engine hands back: document snapshots built from a
 * record (`buildDocFromHash`) and query snapshots built from a list of
 * records (`buildQuerySnapShot`).
 */
module Snapshots {
  import opened Wrappers
  import opened Values
  import opened Tree

  /**
   * A document snapshot. `Existing` carries what `data()` returns;
   * `Missing` is the `{ exists: false, id }` object `DocumentReference.get`
   * produces, which has no `data` at all.
   */
  datatype DocumentSnapshot = Existing(id: Value, data: map<string, Value>) | Missing(id: Value)
  {
    predicate Exists() { this.Existing? }
  }

  /** The id a snapshot reports when its record has no truthy `id`. */
  const DefaultId: Value := Str("abc123")

  /** `buildDocFromHash()` with no argument uses `{}`. */
  const EmptyHash := Record(map[], NoChildren)

  /** The record passed where `undefined` may stand in for it. */
  function HashOrEmpty(hash: Option<Record>): Record
  {
    if hash.Some? then hash.value else EmptyHash
  }

  /**
   * `buildDocFromHash(hash)`: a snapshot that always exists, reports the
   * record's id (or "abc123" when that id is falsy or absent) and whose data
   * is the record without its reserved `id` and `_collections` fields.
   */
  function BuildDocFromHash(hash: Record): (s: DocumentSnapshot)
    ensures s.Exists()
    ensures "id" in hash.fields && Truthy(hash.fields["id"]) ==> s.id == hash.fields["id"]
    ensures !("id" in hash.fields && Truthy(hash.fields["id"])) ==> s.id == DefaultId
    ensures Truthy(s.id)
    ensures forall k :: k in s.data <==> k in hash.fields && k != "id" && k != "_collections"
    ensures forall k :: k in s.data ==> s.data[k] == hash.fields[k]
  {
    var id := if "id" in hash.fields && Truthy(hash.fields["id"]) then hash.fields["id"] else DefaultId;
    Existing(id, hash.fields - {"id", "_collections"})
  }

  /** `data()` does not depend on the reserved fields: changing `id` or `_collections` leaves it as it was. */
  lemma DataIgnoresReserved(hash: Record, id: Value, collections: Children)
    ensures BuildDocFromHash(Record(hash.fields["id" := id], collections)).data == BuildDocFromHash(hash).data
  {
    var a := BuildDocFromHash(Record(hash.fields["id" := id], collections)).data;
    var b := BuildDocFromHash(hash).data;
    assert a.Keys == b.Keys;
  }

  /** A query snapshot: `empty`, `size` and the document snapshots in order. */
  datatype QuerySnapshot = QuerySnapshot(empty: bool, size: nat, docs: seq<DocumentSnapshot>)

  /**
   * `buildQuerySnapShot(requestedRecords)`: one existing document snapshot per
   * record, in order; `empty` exactly when there are none.
   */
  function BuildQuerySnapshot(requested: seq<Record>): (q: QuerySnapshot)
    ensures q.size == |q.docs| == |requested|
    ensures q.empty <==> q.size == 0
    ensures forall i :: 0 <= i < |q.docs| ==> q.docs[i] == BuildDocFromHash(requested[i])
    ensures forall i :: 0 <= i < |q.docs| ==> q.docs[i].Exists()
  {
    var docs := seq(|requested|, i requires 0 <= i < |requested| => BuildDocFromHash(requested[i]));
    QuerySnapshot(|requested| < 1, |requested|, docs)
  }
}
