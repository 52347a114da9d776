/**
 * `FakeFirestore` and its reference objects. A `FakeFirestore` owns the
 * stubbed database; collection and document references are immutable objects
 * that carry a path and resolve it against that database on every read.
 * Writes (`set`, `update`, `add`, `delete`) answer with a snapshot of their
 * argument and leave the database as it was.
 */
module Firestore {
  import opened Wrappers
  import opened Values
  import opened Paths
  import opened Tree
  import opened Resolution
  import opened GroupQuery
  import opened Snapshots

  /** The message `doc(path)` throws for a path with an odd number of segments. */
  const DocumentLevelError := "The path array must be document-level"

  class FakeFirestore {
    /** The stubbed database the tests read through this instance. */
    var database: Node

    /** `new FakeFirestore(stubbedDatabase)`; the default `{}` is `map[]`. */
    constructor(stubbedDatabase: Node)
      ensures database == stubbedDatabase
    {
      database := stubbedDatabase;
    }

    /** `firestore.collection(name)`: a top-level collection reference. */
    method Collection(collectionName: string) returns (c: CollectionReference)
      ensures c.id == collectionName && c.parent == null && c.firestore == this
      ensures c.path == "database/" + collectionName
      ensures c.Valid()
    {
      c := new CollectionReference(collectionName, null, this);
    }

    /** `firestore.collectionGroup(name)`: a query over every collection with that name. */
    method CollectionGroup(collectionName: string) returns (q: Query)
      ensures q.collectionName == collectionName && q.firestore == this
    {
      q := new Query(collectionName, this);
    }

    /**
     * `firestore.doc(path)`: throws unless the path has an even number of
     * segments; otherwise builds the chain of references down to the last
     * document, whose path is the given one below "database".
     */
    method Doc(path: string) returns (r: Result<DocumentReference>)
      ensures r.Failure? <==> |Split(path)| % 2 == 1
      ensures r.Failure? ==> r.error == DocumentLevelError
      ensures r.Success? ==> r.value.firestore == this && r.value.path == "database/" + path
      ensures r.Success? ==> Split(r.value.path)[1..] == Split(path)
      ensures r.Success? ==> r.value.id == Split(path)[|Split(path)| - 1]
      ensures r.Success? ==> r.value.Valid()
    {
      var pathArray := Split(path);
      if |pathArray| % 2 == 1 {
        return Failure(DocumentLevelError);
      }
      var doc: DocumentReference? := null;
      var index := 0;
      while index < |pathArray|
        invariant 0 <= index <= |pathArray| && index % 2 == 0
        invariant doc == null <==> index == 0
        invariant doc != null ==> doc.firestore == this && doc.Valid() && doc.id == pathArray[index - 1]
        invariant doc != null ==> doc.path == "database/" + Join(pathArray[..index])
      {
        var collectionId := pathArray[index];
        var documentId := pathArray[index + 1];
        assert pathArray[..index + 2] == pathArray[..index] + [collectionId, documentId];
        doc := Descend(doc, pathArray[..index], collectionId, documentId);
        index := index + 2;
      }
      assert pathArray[..index] == pathArray;
      JoinSplit(path);
      DatabasePath(path);
      return Success(doc);
    }

    /** One round of the loop of `doc`: a collection reference below `doc`, then a document reference below it. */
    method Descend(doc: DocumentReference?, ghost prefix: seq<string>, collectionId: string, documentId: string)
      returns (d: DocumentReference)
      requires doc == null <==> prefix == []
      requires doc != null ==> doc.firestore == this && doc.path == "database/" + Join(prefix)
      ensures d.firestore == this && d.Valid() && d.id == documentId
      ensures d.path == "database/" + Join(prefix + [collectionId, documentId])
    {
      var collection := new CollectionReference(collectionId, doc, this);
      if doc != null {
        JoinAppend(prefix, collectionId);
      } else {
        assert prefix + [collectionId] == [collectionId];
      }
      assert collection.path == "database/" + Join(prefix + [collectionId]);
      d := new DocumentReference(documentId, collection);
      assert prefix + [collectionId, documentId] == (prefix + [collectionId]) + [documentId];
      JoinAppend(prefix + [collectionId], documentId);
    }
  }

  /** `FakeFirestore.Query`: here, the collection-group query. */
  class Query {
    const collectionName: string
    const firestore: FakeFirestore

    constructor(collectionName: string, firestore: FakeFirestore)
      ensures this.collectionName == collectionName && this.firestore == firestore
    {
      this.collectionName := collectionName;
      this.firestore := firestore;
    }

    /**
     * `query.get()`: a depth-first search from the database that collects
     * every record of every collection called `collectionName`, at any depth.
     * `found` is the list the snapshot is built from.
     */
    method Get() returns (s: QuerySnapshot, ghost found: seq<Record>)
      ensures multiset(found) == Group(firestore.database, collectionName)
      ensures s == BuildQuerySnapshot(found)
      ensures s.size == |Group(firestore.database, collectionName)|
      ensures s.empty <==> Group(firestore.database, collectionName) == multiset{}
    {
      var requested: seq<Record> := [];
      var st: seq<Node> := [firestore.database];
      assert st[..0] == [];
      while |st| > 0
        invariant multiset(requested) + StackGroup(st, collectionName) == Group(firestore.database, collectionName)
        decreases StackSize(st)
      {
        requested, st := VisitTop(requested, st, collectionName);
      }
      found := requested;
      s := BuildQuerySnapshot(requested);
    }
  }

  /** `FakeFirestore.CollectionReference`. */
  class CollectionReference {
    /** Set from the id by the `Query` constructor this class extends. */
    const collectionName: string
    const id: string
    const parent: DocumentReference?
    const firestore: FakeFirestore
    const path: string

    /** The path is the parent document's path, or "database", followed by the id. */
    ghost predicate Valid()
    {
      path == (if parent == null then "database/" + id else parent.path + "/" + id)
    }

    /** `new CollectionReference(id, parent, firestore)`: the firestore defaults to the parent's. */
    constructor(id: string, parent: DocumentReference?, firestore: FakeFirestore?)
      requires firestore != null || parent != null
      ensures this.id == id && this.parent == parent && collectionName == id
      ensures this.firestore == if firestore != null then firestore else parent.firestore
      ensures path == if parent != null then parent.path + "/" + id else "database/" + id
      ensures Valid()
    {
      this.collectionName := id;
      this.id := id;
      this.parent := parent;
      this.firestore := if firestore != null then firestore else parent.firestore;
      this.path := if parent != null then parent.path + "/" + id else "database/" + id;
    }

    /** `collection.add(object)`: a snapshot of the argument; nothing is stored. */
    method Add(hash: Option<Record>) returns (s: DocumentSnapshot)
      ensures s == BuildDocFromHash(HashOrEmpty(hash))
    {
      s := BuildDocFromHash(HashOrEmpty(hash));
    }

    /** `collection.doc(id)`: a reference to a document of this collection. */
    method Doc(id: string) returns (d: DocumentReference)
      ensures d.id == id && d.parent == this && d.firestore == firestore
      ensures d.path == path + "/" + id
      ensures d.Valid()
    {
      d := new DocumentReference(id, this);
    }

    /** `collection.records()`: the records the path resolves to, or none. */
    method Records() returns (rs: seq<Record>)
      ensures rs == RecordsAt(firestore.database, Split(path)[1..])
    {
      ghost var segs := Split(path)[1..];
      var db := firestore.database;
      var pathArray := Split(path)[1..];
      var top := KeyAt(pathArray, 0);
      pathArray := Drop(pathArray, 1);
      var requested: Option<seq<Record>> := if top in db then Some(db[top].records) else None;
      if |pathArray| == 0 {
        return if requested.Some? then requested.value else [];
      }
      assert |segs| > 1 && top == segs[0] && pathArray == segs[1..];
      rs := FollowPath(requested, pathArray);
    }

    /** The loop of `records()`: alternately find a document by id and take one of its sub-collections. */
    static method FollowPath(start: Option<seq<Record>>, pathArray: seq<string>) returns (rs: seq<Record>)
      requires |pathArray| > 0
      ensures start.None? ==> rs == []
      ensures start.Some? ==> rs == RecordsFrom(start.value, pathArray)
    {
      var requested := start;
      var index := 0;
      while index < |pathArray|
        invariant index % 2 == 0
        invariant requested.None? <==> start.None?
        invariant requested.None? ==> index == 0
        invariant requested.Some? ==>
          RecordsFrom(start.value, pathArray) == RecordsFrom(requested.value, Drop(pathArray, index))
      {
        var documentId := pathArray[index];
        var collectionId := KeyAt(pathArray, index + 1);
        if requested.None? {
          return [];
        }
        ghost var rest := Drop(pathArray, index);
        assert rest[0] == documentId && KeyAt(rest, 1) == collectionId;
        assert Drop(rest, 2) == Drop(pathArray, index + 2);
        var document := Find(requested.value, Str(documentId));
        if document.None? || document.value.collections.NoChildren? {
          assert Below(document, collectionId) == [];
          return [];
        }
        var next := Lookup(document.value.collections.node, collectionId);
        assert Below(document, collectionId) == next;
        if |next| == 0 {
          return [];
        }
        requested := Some(next);
        index := index + 2;
      }
      return requested.value;
    }

    /** `collection.get()`: a snapshot of the records the path resolves to. */
    method Get() returns (s: QuerySnapshot)
      ensures s == BuildQuerySnapshot(RecordsAt(firestore.database, Split(path)[1..]))
    {
      var rs := Records();
      s := BuildQuerySnapshot(rs);
    }

    /** `collection.isEqual(other)`: another collection reference on the same firestore with the same path. */
    predicate IsEqual(other: object?)
    {
      other is CollectionReference &&
      (other as CollectionReference).firestore == firestore &&
      (other as CollectionReference).path == path
    }
  }

  /** `FakeFirestore.DocumentReference`. */
  class DocumentReference {
    const id: string
    const parent: CollectionReference
    const firestore: FakeFirestore
    const path: string

    /** The path is the parent collection's path followed by the id. */
    ghost predicate Valid()
    {
      path == parent.path + "/" + id && firestore == parent.firestore
    }

    /** `new DocumentReference(id, parent)`. */
    constructor(id: string, parent: CollectionReference)
      ensures this.id == id && this.parent == parent && firestore == parent.firestore
      ensures path == parent.path + "/" + id
      ensures Valid()
    {
      this.id := id;
      this.parent := parent;
      this.firestore := parent.firestore;
      this.path := parent.path + "/" + id;
    }

    /** `document.collection(name)`: a reference to a sub-collection of this document. */
    method Collection(collectionName: string) returns (c: CollectionReference)
      ensures c.id == collectionName && c.parent == this && c.firestore == firestore
      ensures c.path == path + "/" + collectionName
      ensures c.Valid()
    {
      c := new CollectionReference(collectionName, this, null);
    }

    /** `document.delete()`: resolves without touching the database. */
    method Delete()
    {
    }

    /**
     * `document.get()`: the snapshot of the record the path resolves to, or a
     * missing-document snapshot carrying this reference's id.
     */
    method Get() returns (s: DocumentSnapshot)
      ensures DocumentAt(firestore.database, Split(path)[1..]).None? ==> s == Missing(Str(id))
      ensures DocumentAt(firestore.database, Split(path)[1..]).Some? ==>
        s == BuildDocFromHash(DocumentAt(firestore.database, Split(path)[1..]).value)
    {
      ghost var segs := Split(path)[1..];
      var db := firestore.database;
      var pathArray := Split(path)[1..];
      var top := KeyAt(pathArray, 0);
      pathArray := Drop(pathArray, 1);
      var document: Option<Record>;
      if top in db {
        var documentId := IdAt(pathArray, 0);
        pathArray := Drop(pathArray, 1);
        document := Find(db[top].records, documentId);
      } else {
        return Missing(Str(id));
      }
      var index := 0;
      while index < |pathArray|
        invariant index % 2 == 0
        invariant DocumentAt(db, segs) == DocumentFrom(document, Drop(pathArray, index))
      {
        var collectionId := pathArray[index];
        var documentId := IdAt(pathArray, index + 1);
        if document.None? || document.value.collections.NoChildren? {
          return Missing(Str(id));
        }
        var requested := Lookup(document.value.collections.node, collectionId);
        if |requested| == 0 {
          return Missing(Str(id));
        }
        document := Find(requested, documentId);
        if document.None? {
          return Missing(Str(id));
        }
        assert Drop(Drop(pathArray, index), 2) == Drop(pathArray, index + 2);
        index := index + 2;
      }
      if document.Some? {
        return BuildDocFromHash(document.value);
      }
      return Missing(Str(id));
    }

    /** `document.update(object)`: a snapshot of the argument; nothing is stored. */
    method Update(hash: Option<Record>) returns (s: DocumentSnapshot)
      ensures s == BuildDocFromHash(HashOrEmpty(hash))
    {
      s := BuildDocFromHash(HashOrEmpty(hash));
    }

    /** `document.set(object)`: a snapshot of the argument; nothing is stored. */
    method Set(hash: Option<Record>) returns (s: DocumentSnapshot)
      ensures s == BuildDocFromHash(HashOrEmpty(hash))
    {
      s := BuildDocFromHash(HashOrEmpty(hash));
    }

    /** `document.isEqual(other)`: another document reference on the same firestore with the same path. */
    predicate IsEqual(other: object?)
    {
      other is DocumentReference &&
      (other as DocumentReference).firestore == firestore &&
      (other as DocumentReference).path == path
    }
  }
}
