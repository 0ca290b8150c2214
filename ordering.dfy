/** The order in which the hosted store returns rows: `order(column)` sorts by a
    text column, ascending or descending. Text is compared by character code. */
module Ordering {

  /** `a` sorts before or together with `b`. */
  predicate LexLeq(a: string, b: string)
    decreases |a|
  {
    if a == [] then true
    else if b == [] then false
    else if a[0] != b[0] then a[0] < b[0]
    else LexLeq(a[1..], b[1..])
  }

  lemma {:induction false} LexLeqTotal(a: string, b: string)
    ensures LexLeq(a, b) || LexLeq(b, a)
    decreases |a|
  {
    if a != [] && b != [] && a[0] == b[0] {
      LexLeqTotal(a[1..], b[1..]);
    }
  }

  lemma {:induction false} LexLeqTransitive(a: string, b: string, c: string)
    requires LexLeq(a, b) && LexLeq(b, c)
    ensures LexLeq(a, c)
    decreases |a|
  {
    if a != [] && b != [] && c != [] && a[0] == b[0] && b[0] == c[0] {
      LexLeqTransitive(a[1..], b[1..], c[1..]);
    }
  }

  /** `x` may come before `y` in a listing ordered by `key`. */
  predicate Precedes<T>(key: T -> string, ascending: bool, x: T, y: T) {
    if ascending then LexLeq(key(x), key(y)) else LexLeq(key(y), key(x))
  }

  lemma PrecedesTotal<T>(key: T -> string, ascending: bool, x: T, y: T)
    ensures Precedes(key, ascending, x, y) || Precedes(key, ascending, y, x)
  {
    LexLeqTotal(key(x), key(y));
  }

  lemma PrecedesTransitive<T>(key: T -> string, ascending: bool, x: T, y: T, z: T)
    requires Precedes(key, ascending, x, y) && Precedes(key, ascending, y, z)
    ensures Precedes(key, ascending, x, z)
  {
    if ascending {
      LexLeqTransitive(key(x), key(y), key(z));
    } else {
      LexLeqTransitive(key(z), key(y), key(x));
    }
  }

  ghost predicate SortedBy<T>(s: seq<T>, key: T -> string, ascending: bool) {
    forall i, j :: 0 <= i < j < |s| ==> Precedes(key, ascending, s[i], s[j])
  }

  function InsertBy<T>(x: T, s: seq<T>, key: T -> string, ascending: bool): seq<T> {
    if s == [] then [x]
    else if Precedes(key, ascending, x, s[0]) then [x] + s
    else [s[0]] + InsertBy(x, s[1..], key, ascending)
  }

  /** Insertion sort: the reference for the row order a listing comes back in. */
  function SortBy<T>(s: seq<T>, key: T -> string, ascending: bool): seq<T> {
    if s == [] then [] else InsertBy(s[0], SortBy(s[1..], key, ascending), key, ascending)
  }

  /** `y` may come before every element of `s`. */
  ghost predicate LowerBound<T>(y: T, s: seq<T>, key: T -> string, ascending: bool) {
    forall i :: 0 <= i < |s| ==> Precedes(key, ascending, y, s[i])
  }

  lemma SortedCons<T>(y: T, s: seq<T>, key: T -> string, ascending: bool)
    requires LowerBound(y, s, key, ascending) && SortedBy(s, key, ascending)
    ensures SortedBy([y] + s, key, ascending)
  {
    var r := [y] + s;
    forall i, j | 0 <= i < j < |r| ensures Precedes(key, ascending, r[i], r[j]) {
      if i == 0 {
        assert r[j] == s[j - 1];
      } else {
        assert r[i] == s[i - 1] && r[j] == s[j - 1];
      }
    }
  }

  lemma {:induction false} InsertByLowerBound<T>(y: T, x: T, s: seq<T>, key: T -> string, ascending: bool)
    requires LowerBound(y, s, key, ascending) && Precedes(key, ascending, y, x)
    ensures LowerBound(y, InsertBy(x, s, key, ascending), key, ascending)
  {
    if s != [] && !Precedes(key, ascending, x, s[0]) {
      InsertByLowerBound(y, x, s[1..], key, ascending);
      var tail := InsertBy(x, s[1..], key, ascending);
      assert forall i :: 1 <= i < |tail| + 1 ==> ([s[0]] + tail)[i] == tail[i - 1];
    }
  }

  lemma {:induction false} InsertByElements<T>(x: T, s: seq<T>, key: T -> string, ascending: bool)
    ensures multiset(InsertBy(x, s, key, ascending)) == multiset(s) + multiset{x}
  {
    if s != [] && !Precedes(key, ascending, x, s[0]) {
      InsertByElements(x, s[1..], key, ascending);
      assert s == [s[0]] + s[1..];
    }
  }

  lemma {:induction false} InsertBySorted<T>(x: T, s: seq<T>, key: T -> string, ascending: bool)
    requires SortedBy(s, key, ascending)
    ensures SortedBy(InsertBy(x, s, key, ascending), key, ascending)
  {
    if s == [] {
    } else if Precedes(key, ascending, x, s[0]) {
      forall i | 0 <= i < |s| ensures Precedes(key, ascending, x, s[i]) {
        if i > 0 {
          PrecedesTransitive(key, ascending, x, s[0], s[i]);
        }
      }
      SortedCons(x, s, key, ascending);
    } else {
      PrecedesTotal(key, ascending, x, s[0]);
      InsertBySorted(x, s[1..], key, ascending);
      InsertByLowerBound(s[0], x, s[1..], key, ascending);
      SortedCons(s[0], InsertBy(x, s[1..], key, ascending), key, ascending);
    }
  }

  lemma {:induction false} SortBySorted<T>(s: seq<T>, key: T -> string, ascending: bool)
    ensures SortedBy(SortBy(s, key, ascending), key, ascending)
    ensures multiset(SortBy(s, key, ascending)) == multiset(s)
  {
    if s != [] {
      SortBySorted(s[1..], key, ascending);
      InsertBySorted(s[0], SortBy(s[1..], key, ascending), key, ascending);
      InsertByElements(s[0], SortBy(s[1..], key, ascending), key, ascending);
      assert s == [s[0]] + s[1..];
    }
  }
}
