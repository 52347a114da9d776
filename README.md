# firestore-jest-mock: the in-memory document engine, in Dafny

This project models the storage engine of `mocks/firestore.js`, the fake
Firestore client used in Jest tests. The engine has four parts:

- A **stubbed database**. Top-level collection names map to arrays of
  document records. A record is a plain object with an optional `id` and an
  optional `_collections` object of named sub-collections in the same shape.
  It is `Tree.Record` / `Tree.Node`.
- **Reference objects**. `FakeFirestore`, `Query`, `CollectionReference` and
  `DocumentReference` are classes with the source's fields: `id`, `parent`,
  `firestore` and `path`, plus `database` (on `FakeFirestore`) and
  `collectionName` (on `Query`, and on `CollectionReference`, which the
  `Query` constructor gives its id). Paths are the
  strings the source builds (`"database/" + id`, `parent.path + "/" + id`).
  They are taken apart with the source's `split('/')` (`Paths.Split`).
- **Reads**. `CollectionReference.records`, `DocumentReference.get` and the
  collection-group `Query.get` are methods with the source's loops. Each is
  proved against a specification function:
  - `Resolution.RecordsAt` and `Resolution.DocumentAt` for path resolution;
  - `GroupQuery.Group` for the depth-first search.

  The properties are proved about those functions.
- **Snapshots and field values**. `buildDocFromHash` and `buildQuerySnapShot`
  are `Snapshots.BuildDocFromHash` and `Snapshots.BuildQuerySnapshot`.
  `FieldValue.transform` and its factories are in module `Transforms`.

The engine's writes do not touch the database: `set`, `update` and `add`
return a snapshot of their argument, and `delete` resolves with nothing. The
model keeps this:
- those methods have no `modifies` clause;
- `Properties.WritesLeaveReadsUnchanged` proves that a read after them
  returns what it returned before.

`isEqual` on both reference classes is the predicate `IsEqual` (same class,
same `firestore` object, same path). `Properties.EqualityByPath` states what
it means.

Behaviour worth knowing when reading the model:
- A `set` followed by a `get` does not return the written fields, and `add`
  does not append to the collection.
- `arrayUnion` does not de-duplicate its own payload
  (`Transforms.UnionKeepsPayloadDuplicates`).
- The `delete` sentinel resolves to `undefined`. Nothing removes the field,
  because no write applies sentinels.
- The type declaration of `buildDocFromHash` gives it a second `id`
  parameter and `ref`, `metadata` and `get` members. The code has none of
  these, and neither does the model.
- A path segment past the end of the split path is JavaScript's `undefined`.
  This happens when an id contains a `/`.
  - As a property key it is the string `"undefined"` (`Resolution.KeyAt`).
  - Compared with `===` against a record's `id` it matches records that
    have no `id` (`Resolution.IdAt`).

## Model

| member | source | states |
|---|---|---|
| Paths.SplitCount | mocks/firestore.js:98-102 | `split('/')` yields one more segment than the path has slashes, which is what the document-level parity test counts |
| Paths.SplitSegmentsSlashFree | mocks/firestore.js:98 | no segment produced by `split('/')` contains a slash |
| Paths.SplitConcat | mocks/firestore.js:195 | splitting `parent.path + "/" + id` yields the parent's segments followed by the id's |
| Paths.SplitSegment | mocks/firestore.js:272-276 | an id without a slash is exactly one segment |
| Paths.JoinSplit | mocks/firestore.js:98-114 | joining the segments of a path with `/` gives the path back |
| Paths.SplitJoin | mocks/firestore.js:98-114 | splitting a join of slash-free segments gives the segments back |
| Paths.JoinAppend | mocks/firestore.js:105-113 | adding one more segment to a built path appends `/` and the segment |
| Paths.DatabasePath | mocks/firestore.js:197 | the segments of `"database/" + p` after the leading "database" are the segments of `p` |
| Transforms.WithoutCount | mocks/firestore.js:377-378 | the `arrayRemove` filter keeps every occurrence of each value not being removed and drops every occurrence of each value that is |
| Transforms.WithoutMembers | mocks/firestore.js:371-372 | a value survives the `includes` filter exactly when it is in the array and not in the excluded list |
| Transforms.WithoutConcat | mocks/firestore.js:372 | the filter distributes over concatenation, so kept elements stay in their original order |
| Transforms.Apply | mocks/firestore.js:368-396 | arrayUnion keeps the current array as a prefix and appends exactly the payload elements it lacks, or yields the payload when there is no array; arrayRemove is the order-preserving filter of the current array by the payload, removing all occurrences of the payload's values and keeping every other count, or leaves a non-array unchanged; increment adds to the current number or counts from zero; serverTimestamp yields the clock reading; delete yields `undefined` |
| Transforms.ArrayUnionOf | mocks/firestore.js:398-404 | a missing argument gives an empty payload, an array is the payload, any other value becomes a one-element payload |
| Transforms.ArrayRemoveOf | mocks/firestore.js:406-412 | an array is the payload, any other value (including a missing one) becomes a one-element payload |
| Transforms.IncrementOf | mocks/firestore.js:414-417 | the amount defaults to 1 |
| Transforms.UnionIdempotent | mocks/firestore.js:370-375 | applying the same arrayUnion twice equals applying it once |
| Transforms.RemoveIdempotent | mocks/firestore.js:376-381 | applying the same arrayRemove twice equals applying it once |
| Transforms.RemoveAfterUnion | mocks/firestore.js:370-381 | removing the elements a union added leaves an array as the removal alone would, and a non-array as an empty array |
| Transforms.UnionOfPresent | mocks/firestore.js:371-372 | a union whose elements are all present leaves the array unchanged |
| Transforms.IncrementsCompose | mocks/firestore.js:382-389 | increments by `a` then `b` equal one increment by `a + b` |
| Transforms.UnionExample | mocks/firestore.js:371-372 | `arrayUnion([a, b])` on `[a, c]` is `[a, c, b]` |
| Transforms.RemoveExample | mocks/firestore.js:377-378 | `arrayRemove([a])` on `[a, b, a]` is `[b]` |
| Transforms.UnionKeepsPayloadDuplicates | mocks/firestore.js:372 | the union does not de-duplicate its payload: `arrayUnion([a, a])` on `[]` is `[a, a]` |
| Tree.FindFirst | mocks/firestore.js:235 | `find` by id yields nothing exactly when no record has that id, and otherwise the first record that has it |
| Resolution.DocumentFromRecords | mocks/firestore.js:228-246 | walking a document path below a collection finds the same record as finding the last id in the collection walked to by the prefix |
| Resolution.DocumentInParentCollection | mocks/firestore.js:289-327 | a document path resolves to the first record carrying its last id in the collection its prefix resolves to |
| Resolution.RecordsFromDocument | mocks/firestore.js:300-320 | walking to a sub-collection below a collection yields that sub-collection of the document the walk reaches |
| Resolution.CollectionUnderDocument | mocks/firestore.js:217-249 | a collection path below a document path resolves to the named collection in the `_collections` of the record the document path resolves to, or to nothing |
| GroupQuery.GroupKeysPick | mocks/firestore.js:152-155 | the group collected below a mapping does not depend on the order in which its collections are visited |
| GroupQuery.SizeKeysPick | mocks/firestore.js:152-155 | the size of the tree below a mapping does not depend on the visiting order |
| GroupQuery.StackPush | mocks/firestore.js:154 | pushing a mapping onto the search stack adds its group and its size to what the stack holds |
| GroupQuery.PushChildren | mocks/firestore.js:153-154 | pushing the `_collections` of one collection's documents adds exactly their groups to the stack |
| GroupQuery.PushSubcollections | mocks/firestore.js:152-155 | pushing the `_collections` of every document of every collection adds exactly the group below the mapping |
| GroupQuery.VisitTop | mocks/firestore.js:143-155 | one round of the search moves the popped mapping's group from the stack into the results and strictly shrinks what remains |
| GroupQuery.GroupDocsContains | mocks/firestore.js:153-154 | every document's group is part of its collection's group |
| GroupQuery.ChildGroupInGroup | mocks/firestore.js:152-155 | the group of a document's `_collections` is part of the group of the mapping that holds the document |
| GroupQuery.RecordsFromInGroup | mocks/firestore.js:228-246 | records reached by walking a collection path below a collection are in the collection group of the last segment |
| GroupQuery.ScopedResultsInGroup | mocks/firestore.js:217-249 | everything a collection path resolves to is returned by the collection group of its last segment |
| GroupQuery.GroupKeysWitness | mocks/firestore.js:152-155 | whatever the search collects below a mapping lies below one of its documents |
| GroupQuery.GroupDocsWitness | mocks/firestore.js:153-154 | whatever the search collects below a collection lies below one of its documents |
| GroupQuery.GroupSound | mocks/firestore.js:143-148 | every record the search collects is in a collection with the queried name at some depth |
| GroupQuery.GroupComplete | mocks/firestore.js:143-155 | every record in a collection with the queried name at any depth is collected |
| GroupQuery.GroupMembership | mocks/firestore.js:135-158 | a record is in the collection group exactly when it is in some collection with that name at any depth |
| Snapshots.BuildDocFromHash | mocks/firestore.js:28-39 | the snapshot always exists; its id is the record's truthy `id`, else "abc123"; its data is the record without `id` and `_collections`, key for key |
| Snapshots.DataIgnoresReserved | mocks/firestore.js:31-36 | `data()` does not depend on the reserved `id` and `_collections` fields |
| Snapshots.BuildQuerySnapshot | mocks/firestore.js:41-53 | one existing document snapshot per record in order, `size` their number, `empty` exactly when there are none |
| Firestore.FakeFirestore.constructor | mocks/firestore.js:62-64 | the instance holds the stubbed database |
| Firestore.FakeFirestore.Collection | mocks/firestore.js:85-88 | a top-level collection reference on this instance with path `"database/" + name` |
| Firestore.FakeFirestore.CollectionGroup | mocks/firestore.js:90-93 | a query for the name on this instance |
| Firestore.FakeFirestore.Doc | mocks/firestore.js:95-115 | throws "The path array must be document-level" exactly when the path has an odd number of segments; otherwise the reference's path is `"database/" + path` and its id is the last segment |
| Firestore.FakeFirestore.Descend | mocks/firestore.js:105-113 | one round of the loop in `doc` extends the built path by a collection segment and a document segment |
| Firestore.Query.constructor | mocks/firestore.js:130-133 | the query holds its collection name and firestore |
| Firestore.Query.Get | mocks/firestore.js:135-159 | the snapshot is built from a list holding exactly the records of every collection with the queried name at any depth; its size is their number, and it is empty exactly when there are none |
| Firestore.CollectionReference.constructor | mocks/firestore.js:189-199 | the firestore defaults to the parent's; `collectionName` is the id; the path is the parent's path or "database", then `/` and the id |
| Firestore.CollectionReference.Add | mocks/firestore.js:201-204 | returns a snapshot of the argument (of `{}` when it is missing) and stores nothing |
| Firestore.CollectionReference.Doc | mocks/firestore.js:206-209 | a document reference whose parent is this collection and whose path extends this one by the id |
| Firestore.CollectionReference.Records | mocks/firestore.js:217-249 | returns what the path resolves to in the database |
| Firestore.CollectionReference.FollowPath | mocks/firestore.js:228-246 | the loop of `records` returns the walk from the top-level collection, or nothing when that collection is missing |
| Firestore.CollectionReference.Get | mocks/firestore.js:251-254 | the snapshot of the records the path resolves to |
| Firestore.DocumentReference.constructor | mocks/firestore.js:272-277 | the firestore is the parent's, and the path is the parent's path, then `/` and the id |
| Firestore.DocumentReference.Collection | mocks/firestore.js:279-282 | a collection reference whose parent is this document and whose path extends this one by the name |
| Firestore.DocumentReference.Get | mocks/firestore.js:289-327 | the snapshot of the record the path resolves to, or a missing-document snapshot carrying this reference's id |
| Firestore.DocumentReference.Update | mocks/firestore.js:329-332 | returns a snapshot of the argument and stores nothing |
| Firestore.DocumentReference.Set | mocks/firestore.js:334-337 | returns a snapshot of the argument and stores nothing |
| Properties.SplitAppend | mocks/firestore.js:276 | a slash-free id appended to a path adds exactly one segment |
| Properties.DocumentGetFindsInCollection | mocks/firestore.js:206-249 | `collection.doc(id).get()` reports the first record of `collection.records()` with that id, or a missing document with that id |
| Properties.SubcollectionOfDocument | mocks/firestore.js:279-327 | `document.collection(name)` resolves to that collection in the resolved document's `_collections`, and to nothing when `get` reports the document missing |
| Properties.GroupContainsScoped | mocks/firestore.js:135-158 | every record `collection.get()` sees is also seen by the collection group of the collection's id |
| Properties.WritesLeaveReadsUnchanged | mocks/firestore.js:284-287 | after `set`, `update`, `delete` and `add`, `get` returns what it returned before |
| Properties.EqualityByPath | mocks/firestore.js:339-345 | references are equal by firestore and path, not by identity; a collection never equals a document; `doc("c/d")` equals `collection("c").doc("d")` |
| Properties.CollectionGroupFindsNested | mocks/firestore.js:143-158 | a record in a `cities` collection nested under a `users` document is the one result of `collectionGroup('cities')`, while the top-level `cities` collection is empty |
| Properties.GroupOfCities | mocks/firestore.js:143-155 | the collection group of `cities` in that database is exactly the nested record |

## Left out

- The Jest call recorders (`mockCollection`, `mockGet`, ...) are recording
  only and do not affect results. Most operations call one first; `Query.get`,
  `records`, both `isEqual` and `transform` call none.
- `batch` is left out. It returns a new object whose `delete`, `set` and
  `update` only record their arguments and whose `commit` resolves with
  nothing.
- `getAll` is left out. It calls `get()` on each of its arguments and
  resolves with the array of the results.
- The `where`/`limit`/`orderBy`/`startAfter`/`startAt` chain of `Query` is
  left out. Each records its arguments and returns the recorder's result, or
  the query when that result is falsy.
- `forEach` of a query snapshot is left out. It hands the callback to
  `docs.forEach`, and the model has no callbacks.
- `FieldValue.isEqual` is left out. It compares payloads with `===`, that is
  by reference for arrays, and the model has no reference identity for values.
- The `Timestamp` class is left out. `serverTimestamp` resolves to a clock
  reading that `Transforms.Apply` takes as its `now` parameter.
- Promises are left out. Each operation returns the value its promise
  resolves to.
- `Values.Value` has no variant for a `FieldValue` sentinel or a
  `Timestamp`, so a `set`, `update` or `add` payload holding a sentinel (such
  as `{ n: FieldValue.increment(1) }`) is not modelled. The source returns
  the sentinel object unchanged in `data()`, since no write applies it.
- `Transforms.IncrementOf`: the amount is an integer. The source's
  `Number(...)` coercion, floating-point numbers and NaN are not modelled.
- `Transforms.Apply`: `includes` and `===` on arrays and objects compare by
  reference in JavaScript. The model compares them by contents.
- `Firestore.Query.Get`: the collected records are stated as a multiset, not
  in the order of the search. That order depends on the key order of
  `Object.values` and on the stack popping from its end, and Dafny maps have
  no order.
- Collection values that are not arrays are not modelled: every name in a
  database or a `_collections` object maps to an array of records. The
  declared type of a collection (`mocks/firebase.d.ts`) also allows
  `undefined`. On `{ users: undefined }`, `collection('users').get()` is
  empty and `doc('users/a').get()` reports a missing document, as the model
  gives for an absent name, but `Query.get` throws a `TypeError` when it
  calls `filter` on that value. A name that is simply absent is modelled:
  `Tree.Lookup` gives no records.
- Every record is an object and `_collections` is absent or an object, so
  the falsy-record filter of `buildQuerySnapShot` always keeps every record.
- Records and `_collections` are values, not shared objects, so a database
  whose `_collections` leads back to a record containing it cannot be
  expressed. On such a database the search of `Query.get` never ends; the
  model's `decreases StackSize(st)` holds because the datatype rules cycles
  out.
- Property names inherited from `Object.prototype` (`constructor`,
  `__proto__`) are not modelled. In the source, looking one of them up as a
  collection name finds the inherited value.
- `DocumentReference.delete` does nothing and has no contract. It appears in
  `Properties.WritesLeaveReadsUnchanged`.
- `isEqual` on the reference classes (`IsEqual`) is a predicate with no
  contract of its own. It appears in `Properties.EqualityByPath`.
- `data()` returns a fresh copy on every call. The model gives the map.
- `Firestore.CollectionReference.Doc`: ids are strings, so calling
  `collection.doc()` with no argument is not modelled. That is the usual
  auto-id call: its id is `undefined`, the path segment is the string
  "undefined", and `get()` answers `{ exists: false, id: undefined }`.
- `Firestore.FakeFirestore.Collection` and
  `Firestore.DocumentReference.Collection`: collection names are strings, so
  calling `collection()` with no argument (a name of `undefined`) is not
  modelled.
- `Firestore.FakeFirestore.CollectionGroup`: the name is a string, so
  calling `collectionGroup()` with no argument (a name of `undefined`) is not
  modelled.
- The `exists: !!hash || false` of `buildDocFromHash` is always true for an
  object argument. Passing `null` makes the source throw, and that case is
  not modelled.
- `mocks/firebase.js`, the type declarations and the tests are not part of
  this model.
