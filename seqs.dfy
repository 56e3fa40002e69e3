/** Sequence helpers shared by the PHP and the JavaScript parts of the model. */
module Seqs {

  predicate NoDuplicates<T(==)>(s: seq<T>)
  {
    forall i, j :: 0 <= i < j < |s| ==> s[i] != s[j]
  }

  /**
   * The elements of `s`, each once, in the order of their first occurrence:
   * lodash's `uniq` and PHP's `array_unique` on a list.
   */
  function Unique<T(==,!new)>(s: seq<T>): (r: seq<T>)
    ensures NoDuplicates(r)
    ensures forall x :: x in r <==> x in s
    ensures |r| <= |s|
  {
    if s == [] then []
    else
      var p := Unique(s[..|s| - 1]);
      if s[|s| - 1] in p then p else p + [s[|s| - 1]]
  }

  /** Removing duplicates from a sequence that has none changes nothing. */
  lemma {:induction false} UniqueOfDistinct<T(!new)>(s: seq<T>)
    requires NoDuplicates(s)
    ensures Unique(s) == s
  {
    if s != [] {
      UniqueOfDistinct(s[..|s| - 1]);
      assert s[|s| - 1] !in s[..|s| - 1];
      assert s == s[..|s| - 1] + [s[|s| - 1]];
    }
  }

  /** Where `x` first occurs in `s`. */
  function FirstIndex<T(==)>(s: seq<T>, x: T): (i: nat)
    requires x in s
    ensures i < |s| && s[i] == x && x !in s[..i]
  {
    if s[0] == x then 0 else 1 + FirstIndex(s[1..], x)
  }

  /** Where `x` first occurs in `s`, and `|s|` when it does not occur. */
  function Position<T(==)>(s: seq<T>, x: T): (i: nat)
    ensures i <= |s|
    ensures i < |s| <==> x in s
    ensures i < |s| ==> s[i] == x && x !in s[..i]
  {
    if s == [] then 0
    else if s[0] == x then 0
    else
      var k := Position(s[1..], x);
      assert s[1..][..k] == s[1..k + 1];
      1 + k
  }

  lemma {:induction false} FirstIndexInPrefix<T>(s: seq<T>, n: nat, x: T)
    requires n <= |s| && x in s[..n]
    ensures FirstIndex(s, x) == FirstIndex(s[..n], x)
  {
    if s[0] != x {
      assert s[1..][..n - 1] == s[..n][1..];
      FirstIndexInPrefix(s[1..], n - 1, x);
    }
  }

  /** `Unique` keeps the elements in the order in which they first occur in the input. */
  lemma {:induction false} UniqueKeepsFirstOccurrenceOrder<T(!new)>(s: seq<T>)
    ensures forall i, j :: 0 <= i < j < |Unique(s)| ==>
      FirstIndex(s, Unique(s)[i]) < FirstIndex(s, Unique(s)[j])
  {
    if s != [] {
      var n := |s| - 1;
      var pre := s[..n];
      var p := Unique(pre);
      UniqueKeepsFirstOccurrenceOrder(pre);
      forall x | x in p
        ensures FirstIndex(s, x) == FirstIndex(pre, x) < n
      {
        FirstIndexInPrefix(s, n, x);
      }
      if s[n] !in p {
        assert s[n] !in pre;
        assert FirstIndex(s, s[n]) == n;
      }
    }
  }

  /** All elements of all lists, in order: PHP's `array_merge( ...$lists )` on lists. */
  function Flatten<T(!new)>(lists: seq<seq<T>>): (r: seq<T>)
    ensures forall x :: x in r <==> exists l :: l in lists && x in l
  {
    if lists == [] then []
    else
      var rest := Flatten(lists[1..]);
      assert forall l :: l in lists <==> l == lists[0] || l in lists[1..];
      lists[0] + rest
  }
}
