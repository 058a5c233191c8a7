/** The backend's `.order(column, { ascending })`: a stable sort of rows by an
    integer key in either direction. */
module Ordering {

  datatype Direction = Ascending | Descending

  /** `a` may precede `b` in the given direction. */
  predicate InOrder(dir: Direction, a: int, b: int) {
    if dir == Ascending then a <= b else a >= b
  }

  ghost predicate SortedBy<T>(s: seq<T>, key: T -> int, dir: Direction) {
    forall i, j :: 0 <= i < j < |s| ==> InOrder(dir, key(s[i]), key(s[j]))
  }

  /** Puts `x` in front of the first element it may precede. */
  function Insert<T>(x: T, s: seq<T>, key: T -> int, dir: Direction): (r: seq<T>)
    requires SortedBy(s, key, dir)
    ensures SortedBy(r, key, dir)
    ensures multiset(r) == multiset(s) + multiset{x}
    ensures |r| == |s| + 1
  {
    if s == [] || InOrder(dir, key(x), key(s[0])) then
      [x] + s
    else
      var rest := Insert(x, s[1..], key, dir);
      assert s == [s[0]] + s[1..];
      assert forall k :: 0 <= k < |rest| ==> InOrder(dir, key(s[0]), key(rest[k])) by {
        forall k | 0 <= k < |rest|
          ensures InOrder(dir, key(s[0]), key(rest[k]))
        {
          assert rest[k] in multiset(rest);
          assert rest[k] == x || rest[k] in multiset(s[1..]);
          if rest[k] != x {
            var m :| 0 <= m < |s[1..]| && s[1..][m] == rest[k];
            assert s[m + 1] == rest[k];
          }
        }
      }
      [s[0]] + rest
  }

  /** The rows in key order; rows with equal keys keep their relative order. */
  function Sort<T>(s: seq<T>, key: T -> int, dir: Direction): (r: seq<T>)
    ensures SortedBy(r, key, dir)
    ensures multiset(r) == multiset(s)
    ensures |r| == |s|
  {
    if s == [] then []
    else
      assert s == [s[0]] + s[1..];
      Insert(s[0], Sort(s[1..], key, dir), key, dir)
  }

  /** Sorting keeps exactly the rows it was given: a row is in the result iff
      it was in the input. */
  lemma SortKeepsRows<T>(s: seq<T>, key: T -> int, dir: Direction, x: T)
    ensures x in Sort(s, key, dir) <==> x in s
  {
    var r := Sort(s, key, dir);
    assert x in r <==> x in multiset(r);
    assert x in s <==> x in multiset(s);
  }
}
