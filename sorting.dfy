/**
 * `[...results].sort(compare)`: a stable sort under a comparator, here an
 * insertion sort under a total preorder `le` ("a may come before b").
 */
module Sorting {
  import Lists

  /** Any two values are comparable. */
  ghost predicate Total<T(!new)>(le: (T, T) -> bool)
  {
    forall a, b :: le(a, b) || le(b, a)
  }

  ghost predicate Transitive<T(!new)>(le: (T, T) -> bool)
  {
    forall a, b, c :: le(a, b) && le(b, c) ==> le(a, c)
  }

  ghost predicate Preorder<T(!new)>(le: (T, T) -> bool)
  {
    Total(le) && Transitive(le)
  }

  /** Every element may come before every later one. */
  ghost predicate Sorted<T>(s: seq<T>, le: (T, T) -> bool)
  {
    forall i, j :: 0 <= i < j < |s| ==> le(s[i], s[j])
  }

  /** A sorted sequence stays sorted under a new head that may precede its first element. */
  lemma SortedCons<T(!new)>(x: T, s: seq<T>, le: (T, T) -> bool)
    requires Transitive(le) && Sorted(s, le)
    requires s != [] ==> le(x, s[0])
    ensures Sorted([x] + s, le)
  {
    forall j | 0 <= j < |s| ensures le(x, s[j]) {
      if j > 0 { assert le(s[0], s[j]); }
    }
  }

  /** Places `x` in front of the first element it may precede. */
  function Insert<T(!new)>(x: T, s: seq<T>, le: (T, T) -> bool): (r: seq<T>)
    requires Preorder(le)
    ensures multiset(r) == multiset(s) + multiset{x}
    ensures forall i :: 0 <= i < |r| ==> r[i] == x || r[i] in s
    ensures Sorted(s, le) ==> Sorted(r, le)
    decreases |s|
  {
    if s == [] then [x]
    else if le(x, s[0]) then
      assert Sorted(s, le) ==> Sorted([x] + s, le) by {
        if Sorted(s, le) { SortedCons(x, s, le); }
      }
      assert s == [s[0]] + s[1..];
      [x] + s
    else
      var rest := Insert(x, s[1..], le);
      assert s == [s[0]] + s[1..];
      assert Sorted(s, le) ==> Sorted([s[0]] + rest, le) by {
        if Sorted(s, le) {
          assert le(s[0], x);
          assert rest[0] == x || rest[0] in s[1..];
          SortedCons(s[0], rest, le);
        }
      }
      [s[0]] + rest
  }

  /** The elements that `le` ranks level with `c`: each may come before the other. */
  function Level<T>(le: (T, T) -> bool, c: T): T -> bool
  {
    y => le(c, y) && le(y, c)
  }

  /** Filtering a sequence with a known head. */
  lemma FilterCons<T>(x: T, s: seq<T>, p: T -> bool)
    ensures Lists.Filter([x] + s, p) == (if p(x) then [x] else []) + Lists.Filter(s, p)
  {
    Lists.FilterAppend([x], s, p);
    assert Lists.Filter([x], p) == Lists.Filter([], p) + (if p(x) then [x] else []);
  }

  /** An element that may not precede another is not level with it, so not both are level with `c`. */
  lemma NotBothLevel<T(!new)>(x: T, y: T, le: (T, T) -> bool, c: T)
    requires Transitive(le) && !le(x, y)
    ensures !(Level(le, c)(x) && Level(le, c)(y))
  {
    if Level(le, c)(x) {
      assert le(x, c);
    }
  }

  /**
   * `Insert` puts `x` before every element level with it, so among the
   * elements level with any `c` it only adds `x` at the front.
   */
  lemma {:induction false} InsertLevel<T(!new)>(x: T, s: seq<T>, le: (T, T) -> bool, c: T)
    requires Preorder(le)
    ensures Lists.Filter(Insert(x, s, le), Level(le, c))
            == (if Level(le, c)(x) then [x] else []) + Lists.Filter(s, Level(le, c))
    decreases |s|
  {
    var p := Level(le, c);
    if s == [] {
      FilterCons(x, [], p);
    } else if le(x, s[0]) {
      FilterCons(x, s, p);
    } else {
      NotBothLevel(x, s[0], le, c);
      InsertLevel(x, s[1..], le, c);
      LevelPastHead(x, s[0], Insert(x, s[1..], le), s[1..], p);
      assert s == [s[0]] + s[1..];
    }
  }

  /**
   * The step of `InsertLevel` past a head `y` that `x` may not precede: when
   * inserting into the tail only adds `x` at the front of the level class
   * and not both are level, the same holds with `y` in front of both.
   */
  lemma LevelPastHead<T>(x: T, y: T, rest: seq<T>, t: seq<T>, p: T -> bool)
    requires !(p(x) && p(y))
    requires Lists.Filter(rest, p) == (if p(x) then [x] else []) + Lists.Filter(t, p)
    ensures Lists.Filter([y] + rest, p) == (if p(x) then [x] else []) + Lists.Filter([y] + t, p)
  {
    FilterCons(y, rest, p);
    FilterCons(y, t, p);
    var ft := Lists.Filter(t, p);
    if p(x) {
      assert Lists.Filter(rest, p) == [x] + ft;
      assert Lists.Filter([y] + rest, p) == Lists.Filter(rest, p);
      assert Lists.Filter([y] + t, p) == ft;
    } else {
      assert Lists.Filter(rest, p) == [] + ft == ft;
    }
  }

  /**
   * The sorted permutation, each element inserted into the sorted rest. It
   * is stable: the elements level with any `c` keep their input order.
   */
  function Sort<T(!new)>(s: seq<T>, le: (T, T) -> bool): (r: seq<T>)
    requires Preorder(le)
    ensures multiset(r) == multiset(s)
    ensures Sorted(r, le)
    ensures forall c :: Lists.Filter(r, Level(le, c)) == Lists.Filter(s, Level(le, c))
    decreases |s|
  {
    if s == [] then []
    else
      assert s == [s[0]] + s[1..];
      var rest := Sort(s[1..], le);
      assert forall c :: Lists.Filter(Insert(s[0], rest, le), Level(le, c)) == Lists.Filter(s, Level(le, c)) by {
        forall c ensures Lists.Filter(Insert(s[0], rest, le), Level(le, c)) == Lists.Filter(s, Level(le, c)) {
          InsertLevel(s[0], rest, le, c);
          FilterCons(s[0], s[1..], Level(le, c));
        }
      }
      Insert(s[0], rest, le)
  }

  /** A permutation has the same length and the same elements. */
  lemma PermutationMembers<T>(a: seq<T>, b: seq<T>)
    requires multiset(a) == multiset(b)
    ensures |a| == |b|
    ensures forall x :: x in a <==> x in b
  {
    assert |multiset(a)| == |multiset(b)|;
    forall x ensures x in a <==> x in b {
      assert x in a <==> x in multiset(a);
      assert x in b <==> x in multiset(b);
    }
  }
}
