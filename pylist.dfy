/**
 * The few Python list operations the model relies on, with what Python
 * promises of them: `x in s`, `s.index(x)` and `s.remove(x)`.
 */
module PyList {

  /** No element occurs twice. */
  predicate NoDup<T(==)>(s: seq<T>) {
    forall i, j :: 0 <= i < j < |s| ==> s[i] != s[j]
  }

  /** `s.index(x)`: the position of the first occurrence of `x`. */
  function IndexOf<T(==)>(s: seq<T>, x: T): (i: nat)
    requires x in s
    ensures i < |s| && s[i] == x
    ensures forall j :: 0 <= j < i ==> s[j] != x
  {
    if s[0] == x then 0 else 1 + IndexOf(s[1..], x)
  }

  /** `s.remove(x)`: deletes the first occurrence of `x`, which must be present. */
  function RemoveFirst<T(==)>(s: seq<T>, x: T): (r: seq<T>)
    requires x in s
  {
    var i := IndexOf(s, x);
    s[..i] + s[i + 1..]
  }

  /** Removing deletes exactly one copy of `x` and nothing else. */
  lemma RemoveFirstMultiset<T>(s: seq<T>, x: T)
    requires x in s
    ensures |RemoveFirst(s, x)| == |s| - 1
    ensures multiset(RemoveFirst(s, x)) == multiset(s) - multiset{x}
  {
    var i := IndexOf(s, x);
    assert s == s[..i] + [x] + s[i + 1..];
    assert multiset(s) == multiset(s[..i]) + multiset{x} + multiset(s[i + 1..]);
  }

  /** The elements other than `x` keep their membership. */
  lemma RemoveFirstMembers<T>(s: seq<T>, x: T, y: T)
    requires x in s && y != x
    ensures y in RemoveFirst(s, x) <==> y in s
  {
    var i := IndexOf(s, x);
    assert s == s[..i] + [x] + s[i + 1..];
  }

  /** In a list without duplicates, `x` is gone after removing it, and no duplicate appears. */
  lemma RemoveFirstNoDup<T>(s: seq<T>, x: T)
    requires x in s && NoDup(s)
    ensures x !in RemoveFirst(s, x)
    ensures NoDup(RemoveFirst(s, x))
  {
    var i := IndexOf(s, x);
    var r := RemoveFirst(s, x);
    forall k | 0 <= k < |r| ensures r[k] != x {
      if k < i { assert r[k] == s[k]; } else { assert r[k] == s[k + 1]; }
    }
    forall a, b | 0 <= a < b < |r| ensures r[a] != r[b] {
      var a' := if a < i then a else a + 1;
      var b' := if b < i then b else b + 1;
      assert r[a] == s[a'] && r[b] == s[b'] && a' < b';
    }
  }

  /** Appending a fresh element and then removing it gives back the list. */
  lemma {:induction false} AppendThenRemove<T>(s: seq<T>, x: T)
    requires x !in s
    ensures x in s + [x]
    ensures RemoveFirst(s + [x], x) == s
  {
    assert (s + [x])[|s|] == x;
  }

  /** Removing from the front part of a concatenation leaves the back part alone. */
  lemma RemoveFirstInFront<T>(p: seq<T>, q: seq<T>, x: T)
    requires x in p
    ensures x in p + q
    ensures RemoveFirst(p + q, x) == RemoveFirst(p, x) + q
  {
    var i := IndexOf(p, x);
    assert (p + q)[i] == x;
    var j := IndexOf(p + q, x);
    assert j == i;
    assert (p + q)[..i] == p[..i];
    assert (p + q)[i + 1..] == p[i + 1..] + q;
  }

  /** Removing from behind a prefix that lacks `x` leaves that prefix alone. */
  lemma RemoveFirstBehind<T>(p: seq<T>, q: seq<T>, x: T)
    requires x !in p && x in q
    ensures x in p + q
    ensures RemoveFirst(p + q, x) == p + RemoveFirst(q, x)
  {
    var i := IndexOf(q, x);
    assert (p + q)[|p| + i] == x;
    var j := IndexOf(p + q, x);
    assert j == |p| + i;
    assert (p + q)[..j] == p + q[..i];
    assert (p + q)[j + 1..] == q[i + 1..];
  }
}
