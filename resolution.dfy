/**
 * Path resolution as `CollectionReference.records` and `DocumentReference.get`
 * perform it: the segments after the leading "database" are walked
 * alternately as collection names and document ids. Indexing past the end of
 * the segment array yields JavaScript's `undefined`, which as a property key
 * reads as the string "undefined" and as an id matches only records without one.
 */
module Resolution {
  import opened Wrappers
  import opened Values
  import opened Tree

  /** `segs[i]` used as a property key. */
  function KeyAt(segs: seq<string>, i: nat): string
  {
    if i < |segs| then segs[i] else "undefined"
  }

  /** `segs[i]` compared with `===` against a record's id. */
  function IdAt(segs: seq<string>, i: nat): Value
  {
    if i < |segs| then Str(segs[i]) else Undefined
  }

  /** The segments from index `i` on (none when `i` is past the end). */
  function Drop(segs: seq<string>, i: nat): seq<string>
  {
    if i <= |segs| then segs[i..] else []
  }

  /** The records of the named sub-collection of a resolved document, if any. */
  function Below(doc: Option<Record>, name: string): seq<Record>
  {
    match doc
    case None => []
    case Some(d) =>
      match d.collections
      case NoChildren => []
      case Children(c) => Lookup(c, name)
  }

  /** What `CollectionReference.records()` returns for a path whose segments after "database" are `segs`. */
  function RecordsAt(db: Node, segs: seq<string>): seq<Record>
  {
    if |segs| <= 1 then Lookup(db, KeyAt(segs, 0))
    else if segs[0] !in db then []
    else RecordsFrom(db[segs[0]].records, segs[1..])
  }

  /** The loop of `records()`: `rest` alternates document ids and collection names. */
  function RecordsFrom(rs: seq<Record>, rest: seq<string>): seq<Record>
    decreases |rest|
  {
    if rest == [] then rs
    else
      var next := Below(Find(rs, Str(rest[0])), KeyAt(rest, 1));
      if next == [] then [] else RecordsFrom(next, Drop(rest, 2))
  }

  /** The record `DocumentReference.get()` finds for a path whose segments after "database" are `segs`. */
  function DocumentAt(db: Node, segs: seq<string>): Option<Record>
  {
    var top := KeyAt(segs, 0);
    if top !in db then None
    else DocumentFrom(Find(db[top].records, IdAt(segs, 1)), Drop(segs, 2))
  }

  /** The loop of `get()`: `rest` alternates collection names and document ids. */
  function DocumentFrom(doc: Option<Record>, rest: seq<string>): Option<Record>
    decreases |rest|
  {
    if rest == [] then doc
    else
      var rs := Below(doc, rest[0]);
      if rs == [] then None else DocumentFrom(Find(rs, IdAt(rest, 1)), Drop(rest, 2))
  }

  /** Resolution of a document below `rs` agrees with finding it in the resolved parent collection. */
  lemma {:induction false} DocumentFromRecords(rs: seq<Record>, rest: seq<string>)
    requires |rest| % 2 == 1
    ensures DocumentFrom(Find(rs, Str(rest[0])), rest[1..])
         == Find(RecordsFrom(rs, rest[..|rest| - 1]), Str(rest[|rest| - 1]))
    decreases |rest|
  {
    var n := |rest|;
    if n == 1 {
      assert rest[..0] == [];
    } else {
      var p := rest[..n - 1];
      assert KeyAt(p, 1) == rest[1] && IdAt(rest[1..], 1) == Str(rest[2]);
      assert Drop(p, 2) == rest[2..][..n - 3] && Drop(rest[1..], 2) == rest[2..][1..];
      var next := Below(Find(rs, Str(rest[0])), rest[1]);
      if next != [] {
        DocumentFromRecords(next, rest[2..]);
      }
    }
  }

  /** A document path resolves to the record with the last id in the collection its prefix names. */
  lemma DocumentInParentCollection(db: Node, segs: seq<string>)
    requires |segs| >= 2 && |segs| % 2 == 0
    ensures DocumentAt(db, segs) == Find(RecordsAt(db, segs[..|segs| - 1]), Str(segs[|segs| - 1]))
  {
    var n := |segs|;
    if n > 2 && segs[0] in db {
      assert segs[..n - 1][1..] == segs[1..][..n - 2];
      DocumentFromRecords(db[segs[0]].records, segs[1..]);
    }
  }

  /** Resolution of a sub-collection below `rs` agrees with looking it up under the resolved document. */
  lemma {:induction false} RecordsFromDocument(rs: seq<Record>, rest: seq<string>, name: string)
    requires |rest| % 2 == 1
    ensures RecordsFrom(rs, rest + [name]) == Below(DocumentFrom(Find(rs, Str(rest[0])), rest[1..]), name)
    decreases |rest|
  {
    var n := |rest|;
    var r := rest + [name];
    assert r[0] == rest[0];
    if n == 1 {
      assert KeyAt(r, 1) == name && Drop(r, 2) == [];
    } else {
      assert KeyAt(r, 1) == rest[1] && IdAt(rest[1..], 1) == Str(rest[2]);
      assert Drop(r, 2) == rest[2..] + [name] && Drop(rest[1..], 2) == rest[2..][1..];
      var next := Below(Find(rs, Str(rest[0])), rest[1]);
      if next != [] {
        RecordsFromDocument(next, rest[2..], name);
      }
    }
  }

  /** The sub-collection of a document path holds what the resolved document's `_collections` holds under that name. */
  lemma CollectionUnderDocument(db: Node, segs: seq<string>, name: string)
    requires |segs| >= 2 && |segs| % 2 == 0
    ensures RecordsAt(db, segs + [name]) == Below(DocumentAt(db, segs), name)
  {
    var s := segs + [name];
    assert s[0] == segs[0] && s[1..] == segs[1..] + [name];
    if segs[0] in db {
      RecordsFromDocument(db[segs[0]].records, segs[1..], name);
    }
  }
}
