/**
 * A stable insertion sort over a strict order `before` ("x belongs strictly
 * before y"). It stands for `Array.prototype.sort`, which is stable, with a
 * comparator that is negative exactly when `before` holds, and for the `$sort`
 * stage of an aggregation. `ByKey` is the order of a comparator of the form
 * `key(a) - key(b)` (or `key(b) - key(a)`).
 */
module Sorting {

  /** An irreflexive, transitive relation. */
  ghost predicate StrictOrder<T(!new)>(before: (T, T) -> bool) {
    && (forall x :: !before(x, x))
    && (forall x, y, z :: before(x, y) && before(y, z) ==> before(x, z))
  }

  /** No later element belongs strictly before an earlier one. */
  ghost predicate SortedBy<T>(before: (T, T) -> bool, s: seq<T>) {
    forall i, j :: 0 <= i < j < |s| ==> !before(s[j], s[i])
  }

  /** x belongs strictly before y by a numeric key. */
  predicate Precedes<T>(key: T -> real, descending: bool, x: T, y: T) {
    if descending then key(x) > key(y) else key(x) < key(y)
  }

  function ByKey<T>(key: T -> real, descending: bool): (T, T) -> bool {
    (x: T, y: T) => Precedes(key, descending, x, y)
  }

  lemma ByKeyStrict<T(!new)>(key: T -> real, descending: bool)
    ensures StrictOrder(ByKey(key, descending))
  {
  }

  /** Insert x after every element it does not strictly precede (this keeps ties in input order). */
  function Insert<T>(before: (T, T) -> bool, s: seq<T>, x: T): seq<T> {
    if s == [] then [x]
    else if before(x, s[0]) then [x] + s
    else [s[0]] + Insert(before, s[1..], x)
  }

  function Sort<T>(before: (T, T) -> bool, s: seq<T>): seq<T> {
    if s == [] then []
    else Insert(before, Sort(before, s[..|s| - 1]), s[|s| - 1])
  }

  lemma {:induction false} InsertPermutes<T>(before: (T, T) -> bool, s: seq<T>, x: T)
    ensures multiset(Insert(before, s, x)) == multiset(s) + multiset{x}
  {
    if s != [] && !before(x, s[0]) {
      InsertPermutes(before, s[1..], x);
      assert s == [s[0]] + s[1..];
    }
  }

  lemma {:induction false} InsertSorted<T(!new)>(before: (T, T) -> bool, s: seq<T>, x: T)
    requires StrictOrder(before)
    requires SortedBy(before, s)
    ensures SortedBy(before, Insert(before, s, x))
  {
    if s != [] && !before(x, s[0]) {
      var tail := s[1..];
      assert SortedBy(before, tail) by {
        forall i, j | 0 <= i < j < |tail| ensures !before(tail[j], tail[i]) {
          assert tail[j] == s[j + 1] && tail[i] == s[i + 1];
        }
      }
      InsertSorted(before, tail, x);
      InsertPermutes(before, tail, x);
      var t := Insert(before, tail, x);
      forall j | 0 <= j < |t| ensures !before(t[j], s[0]) {
        assert t[j] in multiset(t);
        assert t[j] in multiset(tail) || t[j] == x;
        if t[j] != x {
          var k :| 0 <= k < |tail| && tail[k] == t[j];
          assert s[k + 1] == t[j];
        }
      }
      var r := [s[0]] + t;
      forall i, j | 0 <= i < j < |r| ensures !before(r[j], r[i]) {
        if i == 0 {
          assert r[j] == t[j - 1];
        } else {
          assert r[i] == t[i - 1] && r[j] == t[j - 1];
        }
      }
    } else if s != [] {
      var r := [x] + s;
      forall i, j | 0 <= i < j < |r| ensures !before(r[j], r[i]) {
        if i == 0 {
          assert r[j] == s[j - 1];
          assert !before(s[j - 1], s[0]) by {
            if j - 1 > 0 {
              assert !before(s[j - 1], s[0]);
            } else {
              assert !before(s[0], s[0]);
            }
          }
        } else {
          assert r[i] == s[i - 1] && r[j] == s[j - 1];
        }
      }
    }
  }

  /** The sorted list is ordered and holds exactly the input's elements. */
  lemma {:induction false} SortCorrect<T(!new)>(before: (T, T) -> bool, s: seq<T>)
    requires StrictOrder(before)
    ensures SortedBy(before, Sort(before, s))
    ensures multiset(Sort(before, s)) == multiset(s)
    ensures |Sort(before, s)| == |s|
  {
    if s != [] {
      var init := s[..|s| - 1];
      SortCorrect(before, init);
      InsertSorted(before, Sort(before, init), s[|s| - 1]);
      InsertPermutes(before, Sort(before, init), s[|s| - 1]);
      assert s == init + [s[|s| - 1]];
    }
  }

  /** Sorting by a numeric key, ascending or descending. */
  lemma SortByKeyCorrect<T(!new)>(key: T -> real, descending: bool, s: seq<T>)
    ensures var r := Sort(ByKey(key, descending), s);
      && multiset(r) == multiset(s) && |r| == |s|
      && (forall i, j :: 0 <= i < j < |r| ==> if descending then key(r[i]) >= key(r[j]) else key(r[i]) <= key(r[j]))
  {
    ByKeyStrict(key, descending);
    SortCorrect(ByKey(key, descending), s);
    var r := Sort(ByKey(key, descending), s);
    forall i, j | 0 <= i < j < |r| ensures if descending then key(r[i]) >= key(r[j]) else key(r[i]) <= key(r[j]) {
      assert !ByKey(key, descending)(r[j], r[i]);
    }
  }
}
