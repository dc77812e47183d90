/**
 * `.sort({ field: -1 })`: a reordering of a query result by a timestamp, newest
 * first. The source leaves the order among equal timestamps to the database;
 * the insertion sort below picks one, and nothing else in the model depends on it.
 */
module Sorting {

  /** Descending by `key`. */
  ghost predicate NewestFirst<T>(xs: seq<T>, key: T -> int)
  {
    forall i, j :: 0 <= i < j < |xs| ==> key(xs[i]) >= key(xs[j])
  }

  function Insert<T>(x: T, xs: seq<T>, key: T -> int): (r: seq<T>)
    ensures multiset(r) == multiset(xs) + multiset{x}
    ensures |r| == |xs| + 1
  {
    if xs == [] || key(x) >= key(xs[0]) then [x] + xs
    else
      assert xs == [xs[0]] + xs[1..];
      [xs[0]] + Insert(x, xs[1..], key)
  }

  /** Inserting into a newest-first list keeps it newest first; the new head is `x` or the old head. */
  lemma {:induction false} InsertNewestFirst<T>(x: T, xs: seq<T>, key: T -> int)
    requires NewestFirst(xs, key)
    ensures NewestFirst(Insert(x, xs, key), key)
    ensures Insert(x, xs, key)[0] == x || (xs != [] && Insert(x, xs, key)[0] == xs[0])
  {
    if xs != [] && key(x) < key(xs[0]) {
      var tail := xs[1..];
      InsertNewestFirst(x, tail, key);
      var rest := Insert(x, tail, key);
      var r := [xs[0]] + rest;
      assert Insert(x, xs, key) == r;
      assert key(xs[0]) >= key(rest[0]);
      forall i, j | 0 <= i < j < |r| ensures key(r[i]) >= key(r[j]) {
        if i == 0 {
          assert r[j] == rest[j - 1];
          if j > 1 {
            assert key(rest[0]) >= key(rest[j - 1]);
          }
        } else {
          assert r[i] == rest[i - 1] && r[j] == rest[j - 1];
        }
      }
    }
  }

  /** The query result reordered newest first: a permutation of the input that is `NewestFirst`. */
  function SortNewestFirst<T>(xs: seq<T>, key: T -> int): (r: seq<T>)
    ensures multiset(r) == multiset(xs)
    ensures NewestFirst(r, key)
  {
    if xs == [] then []
    else
      assert xs == [xs[0]] + xs[1..];
      var sorted := SortNewestFirst(xs[1..], key);
      InsertNewestFirst(xs[0], sorted, key);
      Insert(xs[0], sorted, key)
  }
}
