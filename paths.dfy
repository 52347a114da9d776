/**
 * Slash-separated reference paths. The engine builds paths by string
 * concatenation ("database/" + id, parent.path + "/" + id) and takes them
 * apart again with `path.split('/')`, so the model keeps paths as strings.
 */
module Paths {

  /** `s.split('/')`: the pieces between slashes, empty ones included, always at least one. */
  function Split(s: string): (segs: seq<string>)
    ensures |segs| > 0
  {
    if s == [] then [""]
    else
      var rest := Split(s[1..]);
      if s[0] == '/' then [""] + rest
      else [[s[0]] + rest[0]] + rest[1..]
  }

  /** There is one more segment than there are slashes. */
  lemma {:induction false} SplitCount(s: string)
    ensures |Split(s)| == multiset(s)['/'] + 1
  {
    if s != [] {
      assert s == [s[0]] + s[1..];
      SplitCount(s[1..]);
    }
  }

  /** No segment contains a slash. */
  lemma {:induction false} SplitSegmentsSlashFree(s: string)
    ensures forall i :: 0 <= i < |Split(s)| ==> '/' !in Split(s)[i]
  {
    if s != [] {
      SplitSegmentsSlashFree(s[1..]);
      var rest := Split(s[1..]);
      if s[0] != '/' {
        assert forall c :: c in [s[0]] + rest[0] ==> c == s[0] || c in rest[0];
      }
    }
  }

  /** `segs.join('/')`. */
  function Join(segs: seq<string>): string
    requires |segs| > 0
  {
    if |segs| == 1 then segs[0] else segs[0] + "/" + Join(segs[1..])
  }

  /** One step of `Split`: the first character either starts a new segment or extends the first one. */
  lemma SplitCons(c: char, t: string)
    ensures Split([c] + t) ==
      if c == '/' then [""] + Split(t) else [[c] + Split(t)[0]] + Split(t)[1..]
  {
    assert ([c] + t)[1..] == t;
  }

  /** Splitting a path that was glued with a slash splits both halves independently. */
  lemma {:induction false} SplitConcat(a: string, b: string)
    ensures Split(a + "/" + b) == Split(a) + Split(b)
  {
    if a == [] {
      assert a + "/" + b == ['/'] + b;
      SplitCons('/', b);
    } else {
      var c, t := a[0], a[1..];
      assert a == [c] + t;
      assert a + "/" + b == [c] + (t + "/" + b);
      SplitConcat(t, b);
      SplitConsConcat(c, Split(t), Split(b));
      SplitCons(c, t + "/" + b);
      SplitCons(c, t);
    }
  }

  /** The list arithmetic behind one step of `SplitConcat`. */
  lemma SplitConsConcat(c: char, xs: seq<string>, ys: seq<string>)
    requires |xs| > 0
    ensures [[c] + (xs + ys)[0]] + (xs + ys)[1..] == [[c] + xs[0]] + xs[1..] + ys
    ensures [""] + (xs + ys) == [""] + xs + ys
  {
    assert (xs + ys)[1..] == xs[1..] + ys;
  }

  /** A slash-free string is a single segment. */
  lemma {:induction false} SplitSegment(x: string)
    requires '/' !in x
    ensures Split(x) == [x]
  {
    if x != [] {
      SplitSegment(x[1..]);
      assert x == [x[0]] + x[1..];
    }
  }

  /** Joining what `Split` produced gives back the original path. */
  lemma {:induction false} JoinSplit(s: string)
    ensures Join(Split(s)) == s
  {
    if s != [] {
      JoinSplit(s[1..]);
      var rest := Split(s[1..]);
      if s[0] == '/' {
        assert Split(s)[1..] == rest;
      } else {
        var segs := Split(s);
        if |rest| == 1 {
          assert segs == [[s[0]] + rest[0]];
        } else {
          assert segs[1..] == rest[1..];
          assert Join(rest) == rest[0] + "/" + Join(rest[1..]);
        }
        assert s == [s[0]] + s[1..];
      }
    }
  }

  /** Splitting a join of slash-free segments gives back the segments. */
  lemma {:induction false} SplitJoin(segs: seq<string>)
    requires |segs| > 0
    requires forall i :: 0 <= i < |segs| ==> '/' !in segs[i]
    ensures Split(Join(segs)) == segs
  {
    SplitSegment(segs[0]);
    if |segs| > 1 {
      SplitJoin(segs[1..]);
      SplitConcat(segs[0], Join(segs[1..]));
    }
  }

  /** Appending one segment at the end of a join. */
  lemma {:induction false} JoinAppend(segs: seq<string>, x: string)
    requires |segs| > 0
    ensures Join(segs + [x]) == Join(segs) + "/" + x
  {
    if |segs| > 1 {
      assert (segs + [x])[1..] == segs[1..] + [x];
      JoinAppend(segs[1..], x);
    }
  }

  /** The segments after a slash-free first segment. */
  lemma SplitAfterSegment(x: string, p: string)
    requires '/' !in x
    ensures Split(x + "/" + p) == [x] + Split(p)
  {
    SplitSegment(x);
    SplitConcat(x, p);
  }

  /** The segments after the leading "database" of a reference path built from `p`. */
  lemma DatabasePath(p: string)
    ensures Split("database/" + p)[1..] == Split(p)
  {
    var db := "database";
    assert db == ['d', 'a', 't', 'a', 'b', 'a', 's', 'e'];
    assert '/' !in db;
    assert "database/" + p == db + "/" + p;
    SplitAfterSegment(db, p);
  }
}
