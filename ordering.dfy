/**
  Sorting by a two-field key, used for the SQL `ORDER BY` clauses of the
  sale listing (paid_at desc, id desc) and of a sale's items (id asc).
  Keys are compared lexicographically; a descending order is an ascending
  order on negated fields.
 */
module Ordering {
  predicate KeyLe(a: (int, int), b: (int, int)) {
    a.0 < b.0 || (a.0 == b.0 && a.1 <= b.1)
  }

  predicate SortedBy<T>(s: seq<T>, key: T -> (int, int)) {
    forall i, j :: 0 <= i < j < |s| ==> KeyLe(key(s[i]), key(s[j]))
  }

  /** Inserts x before the first element whose key is larger. */
  function Insert<T>(x: T, s: seq<T>, key: T -> (int, int)): (r: seq<T>)
    requires SortedBy(s, key)
    ensures SortedBy(r, key)
    ensures multiset(r) == multiset(s) + multiset{x}
    ensures |r| == |s| + 1
  {
    if s == [] then [x]
    else if KeyLe(key(x), key(s[0])) then [x] + s
    else
      var rest := Insert(x, s[1..], key);
      assert s == [s[0]] + s[1..];
      assert forall k :: 0 <= k < |rest| ==> KeyLe(key(s[0]), key(rest[k])) by {
        forall k | 0 <= k < |rest| ensures KeyLe(key(s[0]), key(rest[k])) {
          assert rest[k] in multiset(rest);
          assert rest[k] == x || rest[k] in multiset(s[1..]);
          if rest[k] != x {
            var j :| 0 <= j < |s[1..]| && s[1..][j] == rest[k];
            assert s[j + 1] == rest[k];
          }
        }
      }
      [s[0]] + rest
  }

  /** Insertion sort: a sorted permutation of s. */
  function SortBy<T>(s: seq<T>, key: T -> (int, int)): (r: seq<T>)
    ensures SortedBy(r, key)
    ensures multiset(r) == multiset(s)
    ensures |r| == |s|
  {
    if s == [] then []
    else
      assert s == [s[0]] + s[1..];
      Insert(s[0], SortBy(s[1..], key), key)
  }

  /** Every element of the sorted sequence comes from the input and vice versa. */
  lemma SortByMembers<T>(s: seq<T>, key: T -> (int, int), x: T)
    ensures x in SortBy(s, key) <==> x in s
  {
    var r := SortBy(s, key);
    assert x in r <==> x in multiset(r);
    assert x in s <==> x in multiset(s);
  }
}
