/** Sequence operations the JavaScript and Java collections provide:
    `Array.prototype.findIndex`, `List.remove(Object)` and duplicate-freedom. */
module Seqs {
  import opened Wrappers

  /** `findIndex`: the first position whose element satisfies `p`, or `None`
      where JavaScript returns -1. */
  function FindIndex<T>(s: seq<T>, p: T -> bool): (r: Option<nat>)
    ensures r.Some? ==> r.value < |s| && p(s[r.value])
    ensures r.Some? ==> forall k :: 0 <= k < r.value ==> !p(s[k])
    ensures r.None? ==> forall k :: 0 <= k < |s| ==> !p(s[k])
  {
    if s == [] then None
    else if p(s[0]) then Some(0)
    else
      match FindIndex(s[1..], p)
      case None => None
      case Some(i) => Some(i + 1)
  }

  /** The position found is determined by its two defining properties. */
  lemma FindIndexIs<T>(s: seq<T>, p: T -> bool, i: nat)
    requires i < |s| && p(s[i])
    requires forall k :: 0 <= k < i ==> !p(s[k])
    ensures FindIndex(s, p) == Some(i)
  {
  }

  predicate NoDuplicates<T(==)>(s: seq<T>) {
    forall i, j :: 0 <= i < j < |s| ==> s[i] != s[j]
  }

  /** A list with a head is duplicate-free iff its tail is and does not hold the head. */
  lemma NoDuplicatesCons<T>(h: T, t: seq<T>)
    ensures NoDuplicates([h] + t) <==> h !in t && NoDuplicates(t)
  {
    var s := [h] + t;
    if h !in t && NoDuplicates(t) {
      forall i, j | 0 <= i < j < |s| ensures s[i] != s[j] {
        assert s[j] == t[j - 1];
        if i > 0 {
          assert s[i] == t[i - 1];
        }
      }
    }
    if NoDuplicates(s) {
      forall i, j | 0 <= i < j < |t| ensures t[i] != t[j] {
        assert t[i] == s[i + 1] && t[j] == s[j + 1];
      }
      forall j | 0 <= j < |t| ensures t[j] != h {
        assert t[j] == s[j + 1] && h == s[0];
      }
    }
  }

  /** `List.remove(Object)`: drops the first occurrence of `x`, if any. */
  function RemoveFirst<T(==)>(s: seq<T>, x: T): (r: seq<T>)
    ensures x !in s ==> r == s
    ensures forall y :: y in r ==> y in s
    ensures forall y :: y in s && y != x ==> y in r
    ensures multiset(r) == multiset(s) - multiset{x}
  {
    if s == [] then []
    else
      assert s == [s[0]] + s[1..];
      assert multiset(s) == multiset{s[0]} + multiset(s[1..]);
      if s[0] == x then s[1..]
      else
        var rest := RemoveFirst(s[1..], x);
        assert multiset([s[0]] + rest) == multiset{s[0]} + multiset(rest);
        [s[0]] + rest
  }

  /** Removing an element that is there shortens the list by one. */
  lemma RemoveFirstLength<T>(s: seq<T>, x: T)
    requires x in s
    ensures |RemoveFirst(s, x)| == |s| - 1
  {
    var r := RemoveFirst(s, x);
    assert x in multiset(s);
    assert |multiset(r)| == |multiset(s)| - 1;
  }

  /** On a list without duplicates, removing `x` removes every occurrence and
      keeps the list duplicate-free. */
  lemma {:induction false} RemoveFirstNoDuplicates<T>(s: seq<T>, x: T)
    requires NoDuplicates(s)
    ensures x !in RemoveFirst(s, x)
    ensures NoDuplicates(RemoveFirst(s, x))
  {
    if s != [] {
      assert s == [s[0]] + s[1..];
      NoDuplicatesCons(s[0], s[1..]);
      if s[0] != x {
        RemoveFirstNoDuplicates(s[1..], x);
        NoDuplicatesCons(s[0], RemoveFirst(s[1..], x));
      }
    }
  }

  /** Appending a new element keeps a list duplicate-free. */
  lemma NoDuplicatesSnoc<T>(s: seq<T>, x: T)
    requires NoDuplicates(s) && x !in s
    ensures NoDuplicates(s + [x])
  {
    var t := s + [x];
    forall i, j | 0 <= i < j < |t| ensures t[i] != t[j] {
      if j == |s| {
        assert t[i] == s[i];
      } else {
        assert t[i] == s[i] && t[j] == s[j];
      }
    }
  }

  /** A one-element list of the elements of a one-element set is that element alone. */
  lemma SingletonEnumeration<T>(s: seq<T>, c: T)
    requires |s| == 1 && forall x :: x in s <==> x == c
    ensures s == [c]
  {
    assert s[0] in s;
  }

  /** Two duplicate-free lists with no element in common concatenate to a
      duplicate-free list. */
  lemma NoDuplicatesAppend<T>(s: seq<T>, t: seq<T>)
    requires NoDuplicates(s) && NoDuplicates(t)
    requires forall x :: x in t ==> x !in s
    ensures NoDuplicates(s + t)
  {
    var u := s + t;
    forall i, j | 0 <= i < j < |u| ensures u[i] != u[j] {
      if j < |s| {
        assert u[i] == s[i] && u[j] == s[j];
      } else if i < |s| {
        assert u[i] == s[i] && u[j] == t[j - |s|];
        assert u[j] in t;
      } else {
        assert u[i] == t[i - |s|] && u[j] == t[j - |s|];
      }
    }
  }
}
