/**
 * Properties of the reference objects used together, as a test written
 * against the fake would use them.
 */
module Properties {
  import opened Wrappers
  import opened Values
  import opened Paths
  import opened Tree
  import opened Resolution
  import opened GroupQuery
  import opened Snapshots
  import opened Firestore

  /** The segments of a path with one slash-free segment appended. */
  lemma SplitAppend(p: string, x: string)
    requires '/' !in x
    ensures Split(p + "/" + x) == Split(p) + [x]
  {
    SplitConcat(p, x);
    SplitSegment(x);
  }

  /**
   * `collection.doc(id).get()` finds the first record of `collection.records()`
   * whose id is `id`, or reports a missing document with that id.
   */
  method DocumentGetFindsInCollection(c: CollectionReference, id: string)
    returns (s: DocumentSnapshot, rs: seq<Record>)
    requires '/' !in id && |Split(c.path)| % 2 == 0
    ensures rs == RecordsAt(c.firestore.database, Split(c.path)[1..])
    ensures Find(rs, Str(id)).None? ==> s == Missing(Str(id))
    ensures Find(rs, Str(id)).Some? ==> s == BuildDocFromHash(Find(rs, Str(id)).value)
  {
    var d := c.Doc(id);
    s := d.Get();
    rs := c.Records();
    SplitAppend(c.path, id);
    var segs := Split(d.path)[1..];
    assert segs == Split(c.path)[1..] + [id];
    assert segs[..|segs| - 1] == Split(c.path)[1..];
    DocumentInParentCollection(c.firestore.database, segs);
  }

  /**
   * `document.collection(name).records()` is the named collection in the
   * `_collections` of the record `document.get()` resolves; a missing
   * document has none.
   */
  method SubcollectionOfDocument(d: DocumentReference, name: string)
    returns (s: DocumentSnapshot, rs: seq<Record>)
    requires '/' !in name && |Split(d.path)| % 2 == 1 && |Split(d.path)| >= 3
    ensures rs == Below(DocumentAt(d.firestore.database, Split(d.path)[1..]), name)
    ensures s.Missing? ==> rs == []
  {
    s := d.Get();
    var c := d.Collection(name);
    rs := c.Records();
    SplitAppend(d.path, name);
    assert Split(c.path)[1..] == Split(d.path)[1..] + [name];
    CollectionUnderDocument(d.firestore.database, Split(d.path)[1..], name);
  }

  /**
   * Every record `collection.get()` returns is also returned by the
   * collection group of the collection's id.
   */
  method GroupContainsScoped(c: CollectionReference)
    returns (rs: seq<Record>, q: QuerySnapshot, ghost found: seq<Record>)
    requires c.Valid() && '/' !in c.id && |Split(c.path)| % 2 == 0
    ensures rs == RecordsAt(c.firestore.database, Split(c.path)[1..])
    ensures q == BuildQuerySnapshot(found)
    ensures multiset(rs) <= multiset(found)
  {
    rs := c.Records();
    var group := c.firestore.CollectionGroup(c.id);
    q, found := group.Get();
    var base := if c.parent == null then "database" else c.parent.path;
    assert c.path == base + "/" + c.id;
    SplitAppend(base, c.id);
    var segs := Split(c.path)[1..];
    assert segs[|segs| - 1] == c.id;
    ScopedResultsInGroup(c.firestore.database, segs);
  }

  /** Writes never reach the database: reads after `set`, `update`, `delete` and `add` see what they saw before. */
  method WritesLeaveReadsUnchanged(d: DocumentReference, hash: Option<Record>)
    returns (before: DocumentSnapshot, written: DocumentSnapshot, after: DocumentSnapshot)
    ensures written == BuildDocFromHash(HashOrEmpty(hash))
    ensures after == before
  {
    before := d.Get();
    written := d.Set(hash);
    var updated := d.Update(hash);
    d.Delete();
    var added := d.parent.Add(hash);
    after := d.Get();
  }

  /** References are equal by firestore and path, not by identity, and only to references of the same kind. */
  method EqualityByPath(fs: FakeFirestore, other: FakeFirestore, name: string, id: string)
    returns (c1: CollectionReference, c2: CollectionReference, c3: CollectionReference,
             d1: DocumentReference, d2: DocumentReference, r: Result<DocumentReference>)
    requires '/' !in name && '/' !in id
    ensures c1.IsEqual(c2) && d1.IsEqual(d2)
    ensures fs != other ==> !c1.IsEqual(c3)
    ensures !c1.IsEqual(d1) && !d1.IsEqual(c1)
    ensures r.Success? && r.value.IsEqual(d1)
  {
    c1 := fs.Collection(name);
    c2 := fs.Collection(name);
    c3 := other.Collection(name);
    d1 := c1.Doc(id);
    d2 := c2.Doc(id);
    r := fs.Doc(name + "/" + id);
    SplitAppend(name, id);
    SplitSegment(name);
    assert r.value.path == "database/" + (name + "/" + id) == d1.path;
  }

  /** A collection group finds a nested record that the top-level collection of the same name does not. */
  method CollectionGroupFindsNested(user: map<string, Value>, city: Record)
    returns (q: QuerySnapshot, top: QuerySnapshot)
    requires city.collections == NoChildren
    ensures q.size == 1 && q.docs == [BuildDocFromHash(city)]
    ensures top.empty
  {
    var cities := map["cities" := Collection([city])];
    var db := map["users" := Collection([Record(user, Children(cities))])];
    var fs := new FakeFirestore(db);
    var group := fs.CollectionGroup("cities");
    ghost var found;
    q, found := group.Get();
    GroupOfCities(db, cities, user, city);
    MultisetSingleton(found, city);
    var c := fs.Collection("cities");
    top := c.Get();
    SplitSegment("cities");
    DatabasePath("cities");
    assert Split(c.path)[1..] == ["cities"];
  }

  /** The group computation behind `CollectionGroupFindsNested`. */
  lemma GroupOfCities(db: Node, cities: Node, user: map<string, Value>, city: Record)
    requires city.collections == NoChildren
    requires cities == map["cities" := Collection([city])]
    requires db == map["users" := Collection([Record(user, Children(cities))])]
    ensures Group(db, "cities") == multiset{city}
  {
    assert db.Keys == {"users"} && cities.Keys == {"cities"};
    GroupKeysPick(db, db.Keys, "users", "cities");
    GroupKeysPick(cities, cities.Keys, "cities", "cities");
    assert db.Keys - {"users"} == {} && cities.Keys - {"cities"} == {};
    assert GroupDocs(db["users"], 0, "cities") == Group(cities, "cities");
    assert GroupDocs(cities["cities"], 0, "cities") == multiset{};
  }

  /** A sequence whose multiset is a single element is that element. */
  lemma MultisetSingleton(xs: seq<Record>, x: Record)
    requires multiset(xs) == multiset{x}
    ensures xs == [x]
  {
    assert |xs| == |multiset(xs)| == 1;
    assert xs[0] in multiset(xs);
  }
}
