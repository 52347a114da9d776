/**
 * Collection-group queries (`FakeFirestore.collectionGroup(name).get()`): every
 * record of every collection called `name`, at any depth of the tree.
 *
 * `Group` is the reference definition, a fold over the tree; the depth-first
 * search of `Query.get` is proved against it. Dafny maps are unordered, so the
 * fold is a multiset and is independent of the order in which keys are visited.
 */
module GroupQuery {
  import opened Values
  import opened Tree
  import opened Resolution

  /** The records of every collection named `name` in or below `c`. */
  ghost function Group(c: Node, name: string): multiset<Record>
    decreases Children(c), 1
  {
    multiset(Lookup(c, name)) + GroupKeys(c, c.Keys, name)
  }

  /** The part of `Group(c, name)` below the documents of the collections in `keys`. */
  ghost function GroupKeys(c: Node, keys: set<string>, name: string): multiset<Record>
    requires keys <= c.Keys
    decreases Children(c), 0, keys
  {
    if keys == {} then multiset{}
    else
      var k :| k in keys;
      GroupDocs(c[k], 0, name) + GroupKeys(c, keys - {k}, name)
  }

  /** The part of a collection's group below its documents from index `i` on. */
  ghost function GroupDocs(col: Collection, i: nat, name: string): multiset<Record>
    requires i <= |col.records|
    decreases col, |col.records| - i
  {
    if i == |col.records| then multiset{}
    else GroupBelow(col.records[i], name) + GroupDocs(col, i + 1, name)
  }

  /** The group below one document: nothing unless it has `_collections`. */
  ghost function GroupBelow(d: Record, name: string): multiset<Record>
    decreases d.collections, 2
  {
    match d.collections
    case NoChildren => multiset{}
    case Children(c) => Group(c, name)
  }

  /** `GroupKeys` does not depend on which key it takes first. */
  lemma {:induction false} GroupKeysPick(c: Node, keys: set<string>, k: string, name: string)
    requires keys <= c.Keys && k in keys
    ensures GroupKeys(c, keys, name) == GroupDocs(c[k], 0, name) + GroupKeys(c, keys - {k}, name)
    decreases keys
  {
    var k' :| k' in keys && GroupKeys(c, keys, name) == GroupDocs(c[k'], 0, name) + GroupKeys(c, keys - {k'}, name);
    if k' != k {
      GroupKeysPick(c, keys - {k'}, k, name);
      GroupKeysPick(c, keys - {k}, k', name);
      assert keys - {k'} - {k} == keys - {k} - {k'};
    }
  }

  /** The number of mappings in or below `c`: what bounds the depth-first search. */
  ghost function Size(c: Node): nat
    decreases Children(c), 1
  {
    1 + SizeKeys(c, c.Keys)
  }

  ghost function SizeKeys(c: Node, keys: set<string>): nat
    requires keys <= c.Keys
    decreases Children(c), 0, keys
  {
    if keys == {} then 0
    else
      var k :| k in keys;
      SizeDocs(c[k], 0) + SizeKeys(c, keys - {k})
  }

  ghost function SizeDocs(col: Collection, i: nat): nat
    requires i <= |col.records|
    decreases col, |col.records| - i
  {
    if i == |col.records| then 0
    else SizeBelow(col.records[i]) + SizeDocs(col, i + 1)
  }

  ghost function SizeBelow(d: Record): nat
    decreases d.collections, 2
  {
    match d.collections
    case NoChildren => 0
    case Children(c) => Size(c)
  }

  /** `SizeKeys` does not depend on which key it takes first. */
  lemma {:induction false} SizeKeysPick(c: Node, keys: set<string>, k: string)
    requires keys <= c.Keys && k in keys
    ensures SizeKeys(c, keys) == SizeDocs(c[k], 0) + SizeKeys(c, keys - {k})
    decreases keys
  {
    var k' :| k' in keys && SizeKeys(c, keys) == SizeDocs(c[k'], 0) + SizeKeys(c, keys - {k'});
    if k' != k {
      SizeKeysPick(c, keys - {k'}, k);
      SizeKeysPick(c, keys - {k}, k');
      assert keys - {k'} - {k} == keys - {k} - {k'};
    }
  }

  /** What the mappings on the search stack still hold. */
  ghost function StackGroup(st: seq<Node>, name: string): multiset<Record>
  {
    if st == [] then multiset{} else StackGroup(st[..|st| - 1], name) + Group(st[|st| - 1], name)
  }

  ghost function StackSize(st: seq<Node>): nat
  {
    if st == [] then 0 else StackSize(st[..|st| - 1]) + Size(st[|st| - 1])
  }

  lemma StackPush(st: seq<Node>, c: Node, name: string)
    ensures StackGroup(st + [c], name) == StackGroup(st, name) + Group(c, name)
    ensures StackSize(st + [c]) == StackSize(st) + Size(c)
  {
    assert (st + [c])[..|st + [c]| - 1] == st;
  }

  /** `st.push(...documents.filter(d => !!d._collections).map(d => d._collections))` for one collection. */
  method PushChildren(st: seq<Node>, col: Collection, ghost name: string) returns (st': seq<Node>)
    ensures StackGroup(st', name) == StackGroup(st, name) + GroupDocs(col, 0, name)
    ensures StackSize(st') == StackSize(st) + SizeDocs(col, 0)
  {
    st' := st;
    var i := 0;
    while i < |col.records|
      invariant 0 <= i <= |col.records|
      invariant StackGroup(st', name) + GroupDocs(col, i, name) == StackGroup(st, name) + GroupDocs(col, 0, name)
      invariant StackSize(st') + SizeDocs(col, i) == StackSize(st) + SizeDocs(col, 0)
    {
      assert GroupDocs(col, i, name) == GroupBelow(col.records[i], name) + GroupDocs(col, i + 1, name);
      assert SizeDocs(col, i) == SizeBelow(col.records[i]) + SizeDocs(col, i + 1);
      match col.records[i].collections {
        case NoChildren =>
        case Children(c) =>
          StackPush(st', c, name);
          st' := st' + [c];
      }
      i := i + 1;
    }
  }

  /** `Object.values(subcollections).forEach(...)`: pushes the `_collections` of every document of every collection. */
  method PushSubcollections(st: seq<Node>, sub: Node, ghost name: string) returns (st': seq<Node>)
    ensures StackGroup(st', name) == StackGroup(st, name) + GroupKeys(sub, sub.Keys, name)
    ensures StackSize(st') == StackSize(st) + SizeKeys(sub, sub.Keys)
  {
    st' := st;
    var keys := sub.Keys;
    while keys != {}
      invariant keys <= sub.Keys
      invariant StackGroup(st', name) + GroupKeys(sub, keys, name) == StackGroup(st, name) + GroupKeys(sub, sub.Keys, name)
      invariant StackSize(st') + SizeKeys(sub, keys) == StackSize(st) + SizeKeys(sub, sub.Keys)
      decreases keys
    {
      var k :| k in keys;
      GroupKeysPick(sub, keys, k, name);
      SizeKeysPick(sub, keys, k);
      st' := PushChildren(st', sub[k], name);
      keys := keys - {k};
    }
  }

  /** One round of the search loop: pop a mapping, collect its `name` collection, push what lies below it. */
  method VisitTop(requested: seq<Record>, st: seq<Node>, name: string) returns (requested': seq<Record>, st': seq<Node>)
    requires |st| > 0
    ensures multiset(requested') + StackGroup(st', name) == multiset(requested) + StackGroup(st, name)
    ensures StackSize(st') < StackSize(st)
  {
    var sub := st[|st| - 1];
    assert st == st[..|st| - 1] + [sub];
    st' := st[..|st| - 1];
    StackPush(st', sub, name);
    requested' := requested + Lookup(sub, name);
    st' := PushSubcollections(st', sub, name);
  }

  /** Every document's group is part of its collection's group. */
  lemma {:induction false} GroupDocsContains(col: Collection, i: nat, j: nat, name: string)
    requires i <= j < |col.records|
    ensures GroupBelow(col.records[j], name) <= GroupDocs(col, i, name)
    decreases j - i
  {
    if i < j {
      GroupDocsContains(col, i + 1, j, name);
    }
  }

  /** The group of a document's `_collections` is part of the group of the mapping holding the document. */
  lemma ChildGroupInGroup(c: Node, k: string, j: nat, m: Node, name: string)
    requires k in c && j < |c[k].records| && c[k].records[j].collections == Children(m)
    ensures Group(m, name) <= Group(c, name)
  {
    GroupKeysPick(c, c.Keys, k, name);
    GroupDocsContains(c[k], 0, j, name);
  }

  /** What `records()` resolves below a collection `k` of `c` is part of the group named by the last segment. */
  lemma {:induction false} RecordsFromInGroup(c: Node, k: string, rest: seq<string>, name: string)
    requires k in c && |rest| % 2 == 0
    requires name == if rest == [] then k else rest[|rest| - 1]
    ensures multiset(RecordsFrom(c[k].records, rest)) <= Group(c, name)
    decreases |rest|
  {
    if rest != [] {
      var found := Find(c[k].records, Str(rest[0]));
      var next := Below(found, rest[1]);
      assert KeyAt(rest, 1) == rest[1] && Drop(rest, 2) == rest[2..];
      if next != [] {
        var m := found.value.collections.node;
        FindFirst(c[k].records, Str(rest[0]));
        var j :| FirstWithId(c[k].records, j, Str(rest[0])) && c[k].records[j] == found.value;
        RecordsFromInGroup(m, rest[1], rest[2..], name);
        ChildGroupInGroup(c, k, j, m, name);
      }
    }
  }

  /** A collection path resolves to records that the collection group of its last segment also returns. */
  lemma ScopedResultsInGroup(db: Node, segs: seq<string>)
    requires |segs| % 2 == 1
    ensures multiset(RecordsAt(db, segs)) <= Group(db, segs[|segs| - 1])
  {
    if |segs| > 1 && segs[0] in db {
      RecordsFromInGroup(db, segs[0], segs[1..], segs[|segs| - 1]);
    }
  }

  /** Independent description of the group: `r` is in the `name` collection here or in the group of some document's `_collections`. */
  ghost predicate InGroup(c: Node, name: string, r: Record)
    decreases Children(c), 1
  {
    r in Lookup(c, name) ||
    exists k, i :: k in c && 0 <= i < |c[k].records| && InGroupBelow(c[k].records[i], name, r)
  }

  ghost predicate InGroupBelow(d: Record, name: string, r: Record)
    decreases d.collections, 2
  {
    match d.collections
    case NoChildren => false
    case Children(m) => InGroup(m, name, r)
  }

  /** Something in the group below the collections in `keys` lies below one of their documents. */
  lemma {:induction false} GroupKeysWitness(c: Node, keys: set<string>, name: string, r: Record)
    requires keys <= c.Keys && r in GroupKeys(c, keys, name)
    ensures exists k, i :: k in keys && 0 <= i < |c[k].records| && r in GroupBelow(c[k].records[i], name)
    decreases keys
  {
    var k :| k in keys;
    GroupKeysPick(c, keys, k, name);
    if r in GroupDocs(c[k], 0, name) {
      GroupDocsWitness(c[k], 0, name, r);
    } else {
      GroupKeysWitness(c, keys - {k}, name, r);
    }
  }

  /** Something in the group below a collection's documents from `i` on lies below one of them. */
  lemma {:induction false} GroupDocsWitness(col: Collection, i: nat, name: string, r: Record)
    requires i <= |col.records| && r in GroupDocs(col, i, name)
    ensures exists j :: i <= j < |col.records| && r in GroupBelow(col.records[j], name)
    decreases |col.records| - i
  {
    if r !in GroupBelow(col.records[i], name) {
      GroupDocsWitness(col, i + 1, name, r);
    }
  }

  /** Everything the fold collects satisfies the independent description. */
  lemma {:induction false} GroupSound(c: Node, name: string, r: Record)
    requires r in Group(c, name)
    ensures InGroup(c, name, r)
    decreases Children(c)
  {
    if r !in Lookup(c, name) {
      GroupKeysWitness(c, c.Keys, name, r);
      var k, i :| k in c && 0 <= i < |c[k].records| && r in GroupBelow(c[k].records[i], name);
      var m := c[k].records[i].collections.node;
      GroupSound(m, name, r);
      assert InGroupBelow(c[k].records[i], name, r);
    }
  }

  /** Everything the independent description admits is collected by the fold. */
  lemma {:induction false} GroupComplete(c: Node, name: string, r: Record)
    requires InGroup(c, name, r)
    ensures r in Group(c, name)
    decreases Children(c)
  {
    if r !in Lookup(c, name) {
      var k, i :| k in c && 0 <= i < |c[k].records| && InGroupBelow(c[k].records[i], name, r);
      var m := c[k].records[i].collections.node;
      GroupComplete(m, name, r);
      ChildGroupInGroup(c, k, i, m, name);
    }
  }

  /** A record is in the collection group exactly when it is in some collection named `name` at any depth. */
  lemma GroupMembership(c: Node, name: string, r: Record)
    ensures r in Group(c, name) <==> InGroup(c, name, r)
  {
    if r in Group(c, name) {
      GroupSound(c, name, r);
    }
    if InGroup(c, name, r) {
      GroupComplete(c, name, r);
    }
  }
}
