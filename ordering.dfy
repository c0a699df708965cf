/** The `orderBy(field, 'desc')` of a document query: a sort by a timestamp
    key, latest first. */
module Ordering {

  ghost predicate DescendingBy<T>(s: seq<T>, key: T -> int) {
    forall i, j :: 0 <= i < j < |s| ==> key(s[i]) >= key(s[j])
  }

  /** Places `x` in front of the first element whose key is not above its own. */
  function Insert<T>(x: T, s: seq<T>, key: T -> int): (r: seq<T>)
    requires DescendingBy(s, key)
    ensures multiset(r) == multiset(s) + multiset{x}
    ensures DescendingBy(r, key)
  {
    if s == [] then [x]
    else if key(x) >= key(s[0]) then
      ConsDescending(x, s, key);
      [x] + s
    else
      var tail := Insert(x, s[1..], key);
      TailBounded(s, key);
      BoundedByMultiset(tail, s[1..], x, key, key(s[0]));
      ConsDescending(s[0], tail, key);
      assert s == [s[0]] + s[1..];
      [s[0]] + tail
  }

  /** The keys after the head of a descending list are bounded by the head's. */
  lemma TailBounded<T>(s: seq<T>, key: T -> int)
    requires s != [] && DescendingBy(s, key)
    ensures DescendingBy(s[1..], key)
    ensures forall k :: 0 <= k < |s[1..]| ==> key(s[1..][k]) <= key(s[0])
  {
    assert forall k :: 0 <= k < |s[1..]| ==> s[1..][k] == s[k + 1];
  }

  /** A head whose key bounds a descending list keeps it descending. */
  lemma ConsDescending<T>(h: T, t: seq<T>, key: T -> int)
    requires DescendingBy(t, key)
    requires forall k :: 0 <= k < |t| ==> key(t[k]) <= key(h)
    ensures DescendingBy([h] + t, key)
  {
    var r := [h] + t;
    forall i, j | 0 <= i < j < |r|
      ensures key(r[i]) >= key(r[j])
    {
      assert r[j] == t[j - 1];
      if i > 0 {
        assert r[i] == t[i - 1];
      }
    }
  }

  /** A bound on the keys of `s` and of `x` bounds the keys of any sequence
      holding the same elements. */
  lemma BoundedByMultiset<T>(t: seq<T>, s: seq<T>, x: T, key: T -> int, b: int)
    requires multiset(t) == multiset(s) + multiset{x}
    requires forall k :: 0 <= k < |s| ==> key(s[k]) <= b
    requires key(x) <= b
    ensures forall k :: 0 <= k < |t| ==> key(t[k]) <= b
  {
    forall k | 0 <= k < |t|
      ensures key(t[k]) <= b
    {
      assert t[k] in multiset(t);
      if t[k] != x {
        assert t[k] in multiset(s);
        var m :| 0 <= m < |s| && s[m] == t[k];
      }
    }
  }

  /** The elements of `s`, latest key first, by insertion from the back. */
  function SortDesc<T>(s: seq<T>, key: T -> int): (r: seq<T>)
    ensures multiset(r) == multiset(s)
    ensures |r| == |s|
    ensures DescendingBy(r, key)
  {
    if s == [] then []
    else
      assert s == [s[0]] + s[1..];
      Insert(s[0], SortDesc(s[1..], key), key)
  }

  /** A list already latest first, ties included, comes back unchanged. */
  lemma {:induction false} SortDescOfSorted<T>(s: seq<T>, key: T -> int)
    requires DescendingBy(s, key)
    ensures SortDesc(s, key) == s
  {
    if s != [] {
      TailBounded(s, key);
      SortDescOfSorted(s[1..], key);
      assert SortDesc(s, key) == Insert(s[0], s[1..], key);
      assert s == [s[0]] + s[1..];
    }
  }
}
