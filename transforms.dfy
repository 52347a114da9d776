/**
 * `FakeFirestore.FieldValue`: deferred write instructions and how each one
 * resolves against the value a field currently holds.
 */
module Transforms {
  import opened Wrappers
  import opened Values

  /** A field-value sentinel: its kind together with its payload. */
  datatype FieldValue =
    | ArrayUnion(elements: seq<Value>)
    | ArrayRemove(elements: seq<Value>)
    | Increment(amount: int)
    | ServerTimestamp
    | Delete

  /** `xs.filter(v => !ys.includes(v))`: every element of `xs` not in `ys`, in order. */
  function Without(xs: seq<Value>, ys: seq<Value>): (r: seq<Value>)
    ensures |r| <= |xs|
  {
    if xs == [] then []
    else
      var rest := Without(xs[1..], ys);
      if xs[0] in ys then rest else [xs[0]] + rest
  }

  /** Each value occurs as often as in `xs`, or not at all when it is in `ys`. */
  lemma {:induction false} WithoutCount(xs: seq<Value>, ys: seq<Value>)
    ensures forall v :: multiset(Without(xs, ys))[v] == if v in ys then 0 else multiset(xs)[v]
  {
    if xs != [] {
      assert xs == [xs[0]] + xs[1..];
      WithoutCount(xs[1..], ys);
    }
  }

  /** A value survives exactly when it is in `xs` and not in `ys`. */
  lemma WithoutMembers(xs: seq<Value>, ys: seq<Value>)
    ensures forall v :: v in Without(xs, ys) <==> v in xs && v !in ys
  {
    WithoutCount(xs, ys);
    forall v
      ensures v in Without(xs, ys) <==> v in xs && v !in ys
    {
      assert v in Without(xs, ys) <==> multiset(Without(xs, ys))[v] > 0;
      assert v in xs <==> multiset(xs)[v] > 0;
    }
  }

  /** Filtering distributes over concatenation, so it keeps the order of the kept elements. */
  lemma {:induction false} WithoutConcat(xs: seq<Value>, zs: seq<Value>, ys: seq<Value>)
    ensures Without(xs + zs, ys) == Without(xs, ys) + Without(zs, ys)
  {
    if xs != [] {
      assert (xs + zs)[0] == xs[0] && (xs + zs)[1..] == xs[1..] + zs;
      WithoutConcat(xs[1..], zs, ys);
      var a, b := Without(xs[1..], ys), Without(zs, ys);
      assert [xs[0]] + (a + b) == ([xs[0]] + a) + b;
    } else {
      assert xs + zs == zs;
    }
  }

  /** Filtering a single element keeps it exactly when it is not excluded. */
  lemma WithoutOne(x: Value, ys: seq<Value>)
    ensures Without([x], ys) == if x in ys then [] else [x]
  {
    assert [x][1..] == [];
  }

  /** Nothing survives when every element is excluded. */
  lemma {:induction false} WithoutAllExcluded(xs: seq<Value>, ys: seq<Value>)
    requires forall v :: v in xs ==> v in ys
    ensures Without(xs, ys) == []
  {
    if xs != [] {
      assert xs[0] in xs;
      assert forall v :: v in xs[1..] ==> v in xs;
      WithoutAllExcluded(xs[1..], ys);
    }
  }

  /** Everything survives when nothing is excluded. */
  lemma {:induction false} WithoutNoneExcluded(xs: seq<Value>, ys: seq<Value>)
    requires forall v :: v in xs ==> v !in ys
    ensures Without(xs, ys) == xs
  {
    if xs != [] {
      assert xs[0] in xs;
      assert forall v :: v in xs[1..] ==> v in xs;
      WithoutNoneExcluded(xs[1..], ys);
    }
  }

  /**
   * `FieldValue.prototype.transform`: the value a field holds after the
   * sentinel is applied to `current`. `now` is the clock reading that a
   * server timestamp resolves to; `Undefined` is the deletion result.
   */
  function Apply(fv: FieldValue, current: Value, now: Value): (r: Value)
    // arrayUnion on an array keeps it as a prefix and appends the payload's new elements in order
    ensures fv.ArrayUnion? && current.Arr? ==>
      r.Arr? && r.elems == current.elems + Without(fv.elements, current.elems)
    ensures fv.ArrayUnion? && current.Arr? ==>
      forall v :: v in r.elems <==> v in current.elems || v in fv.elements
    // arrayUnion on anything else yields the payload itself
    ensures fv.ArrayUnion? && !current.Arr? ==> r == Arr(fv.elements)
    // arrayRemove drops every occurrence of each payload element and nothing else
    ensures fv.ArrayRemove? && current.Arr? ==>
      r.Arr? && r.elems == Without(current.elems, fv.elements)
    ensures fv.ArrayRemove? && current.Arr? ==>
      r.Arr? && forall v ::
        multiset(r.elems)[v] == if v in fv.elements then 0 else multiset(current.elems)[v]
    ensures fv.ArrayRemove? && !current.Arr? ==> r == current
    // increment counts from the current number, or from zero when there is none
    ensures fv.Increment? ==> r.Num? && r.n - fv.amount == (if current.Num? then current.n else 0)
    ensures fv.ServerTimestamp? ==> r == now
    ensures fv.Delete? ==> r == Undefined
  {
    match fv
    case ArrayUnion(es) =>
      if current.Arr? then
        WithoutMembers(es, current.elems);
        Arr(current.elems + Without(es, current.elems))
      else Arr(es)
    case ArrayRemove(es) =>
      if current.Arr? then
        WithoutCount(current.elems, es);
        Arr(Without(current.elems, es))
      else current
    case Increment(amount) =>
      if current.Num? then Num(current.n + amount) else Num(amount)
    case ServerTimestamp => now
    case Delete => Undefined
  }

  /** `FieldValue.arrayUnion(elements = [])`: a non-array argument becomes a one-element payload. */
  function ArrayUnionOf(elements: Value): (fv: FieldValue)
    ensures fv.ArrayUnion?
    ensures elements.Undefined? ==> fv.elements == []
    ensures elements.Arr? ==> fv.elements == elements.elems
    ensures !elements.Undefined? && !elements.Arr? ==> fv.elements == [elements]
  {
    match elements
    case Undefined => ArrayUnion([])
    case Arr(es) => ArrayUnion(es)
    case _ => ArrayUnion([elements])
  }

  /** `FieldValue.arrayRemove(elements)`: no default, so a missing argument removes `undefined`. */
  function ArrayRemoveOf(elements: Value): (fv: FieldValue)
    ensures fv.ArrayRemove?
    ensures elements.Arr? ==> fv.elements == elements.elems
    ensures !elements.Arr? ==> fv.elements == [elements]
  {
    if elements.Arr? then ArrayRemove(elements.elems) else ArrayRemove([elements])
  }

  /** `FieldValue.increment(amount = 1)`. */
  function IncrementOf(amount: Option<int>): (fv: FieldValue)
    ensures fv.Increment?
    ensures fv.amount == if amount.Some? then amount.value else 1
  {
    match amount
    case None => Increment(1)
    case Some(n) => Increment(n)
  }

  /** Applying the same union twice changes nothing the second time. */
  lemma UnionIdempotent(es: seq<Value>, current: Value, now: Value)
    ensures Apply(ArrayUnion(es), Apply(ArrayUnion(es), current, now), now)
         == Apply(ArrayUnion(es), current, now)
  {
    var once := Apply(ArrayUnion(es), current, now);
    WithoutAllExcluded(es, once.elems);
    assert once.elems + [] == once.elems;
  }

  /** Applying the same removal twice changes nothing the second time. */
  lemma RemoveIdempotent(es: seq<Value>, current: Value, now: Value)
    ensures Apply(ArrayRemove(es), Apply(ArrayRemove(es), current, now), now)
         == Apply(ArrayRemove(es), current, now)
  {
    if current.Arr? {
      WithoutMembers(current.elems, es);
      WithoutNoneExcluded(Without(current.elems, es), es);
    }
  }

  /** Removing what a union added leaves the array as if only the removal had been applied. */
  lemma RemoveAfterUnion(es: seq<Value>, current: Value, now: Value)
    ensures Apply(ArrayRemove(es), Apply(ArrayUnion(es), current, now), now)
         == if current.Arr? then Apply(ArrayRemove(es), current, now) else Arr([])
  {
    var cur := if current.Arr? then current.elems else [];
    if current.Arr? {
      WithoutConcat(cur, Without(es, cur), es);
      WithoutMembers(es, cur);
      WithoutAllExcluded(Without(es, cur), es);
      assert Without(cur, es) + [] == Without(cur, es);
    } else {
      WithoutAllExcluded(es, es);
    }
  }

  /** A union of elements already present leaves an array unchanged. */
  lemma UnionOfPresent(es: seq<Value>, current: Value, now: Value)
    requires current.Arr? && forall v :: v in es ==> v in current.elems
    ensures Apply(ArrayUnion(es), current, now) == current
  {
    WithoutAllExcluded(es, current.elems);
    assert current.elems + [] == current.elems;
  }

  /** Two increments add up. */
  lemma IncrementsCompose(a: int, b: int, current: Value, now: Value)
    ensures Apply(Increment(b), Apply(Increment(a), current, now), now)
         == Apply(Increment(a + b), current, now)
  {
  }

  /** `arrayUnion([a, b])` on `[a, c]` is `[a, c, b]`. */
  lemma UnionExample(a: Value, b: Value, c: Value, now: Value)
    requires a != b && b != c
    ensures Apply(ArrayUnion([a, b]), Arr([a, c]), now) == Arr([a, c, b])
  {
    assert [a, b] == [a] + [b];
    WithoutConcat([a], [b], [a, c]);
    WithoutOne(a, [a, c]);
    WithoutOne(b, [a, c]);
  }

  /** `arrayRemove([a])` on `[a, b, a]` is `[b]`. */
  lemma RemoveExample(a: Value, b: Value, now: Value)
    requires a != b
    ensures Apply(ArrayRemove([a]), Arr([a, b, a]), now) == Arr([b])
  {
    assert [a, b, a] == [a] + [b] + [a];
    WithoutConcat([a] + [b], [a], [a]);
    WithoutConcat([a], [b], [a]);
    WithoutOne(a, [a]);
    WithoutOne(b, [a]);
  }

  /** The payload is not de-duplicated: `arrayUnion([a, a])` on `[]` yields `[a, a]`. */
  lemma UnionKeepsPayloadDuplicates(a: Value, now: Value)
    ensures Apply(ArrayUnion([a, a]), Arr([]), now) == Arr([a, a])
  {
    WithoutNoneExcluded([a, a], []);
  }
}
