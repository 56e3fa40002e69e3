/**
 * The order in which report keys are sorted: strings compared character by
 * character, by code point, a proper prefix coming first. On UTF-8 keys this
 * is the order of PHP's `strcmp`, which `ksort` uses for non-numeric string
 * keys. JavaScript's default string comparison goes by UTF-16 code unit
 * instead, which agrees with it on characters up to U+FFFF only.
 */
module Lex {

  predicate Less(a: string, b: string)
  {
    if a == [] then b != []
    else if b == [] then false
    else a[0] < b[0] || (a[0] == b[0] && Less(a[1..], b[1..]))
  }

  lemma {:induction false} LessIrreflexive(a: string)
    ensures !Less(a, a)
  {
    if a != [] {
      LessIrreflexive(a[1..]);
    }
  }

  lemma {:induction false} LessTransitive(a: string, b: string, c: string)
    requires Less(a, b) && Less(b, c)
    ensures Less(a, c)
  {
    if a != [] && b != [] && c != [] && a[0] == b[0] == c[0] {
      LessTransitive(a[1..], b[1..], c[1..]);
    }
  }

  lemma {:induction false} LessTotal(a: string, b: string)
    ensures a == b || Less(a, b) || Less(b, a)
  {
    if a != [] && b != [] && a[0] == b[0] {
      LessTotal(a[1..], b[1..]);
      if a[1..] == b[1..] {
        assert a == [a[0]] + a[1..] && b == [b[0]] + b[1..];
      }
    }
  }

  /** Ascending and without repetitions. */
  predicate StrictlySorted(s: seq<string>)
  {
    forall i, j :: 0 <= i < j < |s| ==> Less(s[i], s[j])
  }

  /** A key smaller than the head of a sorted sequence is smaller than all of it. */
  lemma BelowSorted(k: string, s: seq<string>)
    requires StrictlySorted(s) && s != [] && Less(k, s[0])
    ensures forall x :: x in s ==> Less(k, x)
  {
    forall x | x in s
      ensures Less(k, x)
    {
      var j :| 0 <= j < |s| && s[j] == x;
      if j > 0 {
        LessTransitive(k, s[0], s[j]);
      }
    }
  }

  /** Puts `k` at its place in a sorted sequence; a key already there is not repeated. */
  function Insert(s: seq<string>, k: string): (r: seq<string>)
    requires StrictlySorted(s)
    ensures StrictlySorted(r)
    ensures forall x :: x in r <==> x in s || x == k
    ensures |r| == if k in s then |s| else |s| + 1
  {
    if s == [] then [k]
    else if k == s[0] then s
    else if Less(k, s[0]) then
      BelowSorted(k, s);
      LessIrreflexive(k);
      [k] + s
    else
      LessTotal(k, s[0]);
      var rest := Insert(s[1..], k);
      assert forall x :: x in rest ==> Less(s[0], x);
      assert s == [s[0]] + s[1..];
      [s[0]] + rest
  }

  /** The keys of `s`, sorted ascending, each once. */
  function Sort(s: seq<string>): (r: seq<string>)
    ensures StrictlySorted(r)
    ensures forall x :: x in r <==> x in s
  {
    if s == [] then [] else Insert(Sort(s[..|s| - 1]), s[|s| - 1])
  }

  lemma LessAsymmetric(a: string, b: string)
    ensures !(Less(a, b) && Less(b, a))
  {
    if Less(a, b) && Less(b, a) {
      LessTransitive(a, b, a);
      LessIrreflexive(a);
    }
  }

  /** The head of a sorted sequence is below every other key in it. */
  lemma HeadIsLeast(s: seq<string>, x: string)
    requires StrictlySorted(s) && x in s
    ensures x == s[0] || Less(s[0], x)
  {
    var j :| 0 <= j < |s| && s[j] == x;
    if j > 0 {
      assert Less(s[0], s[j]);
    }
  }

  /** Two sorted sequences with the same keys are equal: the sorted order of a set of keys is unique. */
  lemma {:induction false} SortedUnique(a: seq<string>, b: seq<string>)
    requires StrictlySorted(a) && StrictlySorted(b)
    requires forall x :: x in a <==> x in b
    ensures a == b
  {
    assert a != [] ==> a[0] in b;
    assert b != [] ==> b[0] in a;
    if a != [] && b != [] {
      HeadIsLeast(a, b[0]);
      HeadIsLeast(b, a[0]);
      LessAsymmetric(a[0], b[0]);
      LessIrreflexive(a[0]);
      forall x | x in a[1..]
        ensures x in b[1..]
      {
        var i :| 1 <= i < |a| && a[i] == x;
        assert Less(a[0], a[i]);
        assert x in a && x in b;
        var j :| 0 <= j < |b| && b[j] == x;
        assert j != 0;
        assert b[1..][j - 1] == x;
      }
      forall x | x in b[1..]
        ensures x in a[1..]
      {
        var i :| 1 <= i < |b| && b[i] == x;
        assert Less(b[0], b[i]);
        assert x in b && x in a;
        var j :| 0 <= j < |a| && a[j] == x;
        assert j != 0;
        assert a[1..][j - 1] == x;
      }
      SortedUnique(a[1..], b[1..]);
      assert a == [a[0]] + a[1..] && b == [b[0]] + b[1..];
    }
  }
}
