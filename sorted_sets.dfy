/**
 * Python's `sorted(set(xs))` on lists of strings: the distinct elements in
 * ascending code-point order, and list operations on such sorted lists.
 */
module SortedSets {
  import opened Text

  /** Python's `a < b` on strings: lexicographic order on code points. */
  predicate Less(a: String, b: String) {
    if a == [] then b != []
    else if b == [] then false
    else if a[0] != b[0] then a[0] < b[0]
    else Less(a[1..], b[1..])
  }

  lemma {:induction false} LessIrreflexive(a: String)
    ensures !Less(a, a)
  {
    if a != [] { LessIrreflexive(a[1..]); }
  }

  lemma {:induction false} LessTransitive(a: String, b: String, c: String)
    requires Less(a, b) && Less(b, c)
    ensures Less(a, c)
  {
    if a != [] && b != [] && c != [] && a[0] == b[0] && b[0] == c[0] {
      LessTransitive(a[1..], b[1..], c[1..]);
    }
  }

  /** Any two different strings are ordered one way or the other. */
  lemma {:induction false} LessTotal(a: String, b: String)
    ensures a == b || Less(a, b) || Less(b, a)
  {
    if a != [] && b != [] && a[0] == b[0] {
      LessTotal(a[1..], b[1..]);
      if a[1..] == b[1..] {
        assert a == [a[0]] + a[1..] && b == [b[0]] + b[1..];
      }
    }
  }

  lemma {:induction false} LessAsymmetric(a: String, b: String)
    requires Less(a, b)
    ensures !Less(b, a)
  {
    if a != [] && b != [] && a[0] == b[0] {
      LessAsymmetric(a[1..], b[1..]);
    }
  }

  /** Ascending with no element twice. */
  predicate StrictlySorted(s: seq<String>) {
    forall i, j :: 0 <= i < j < |s| ==> Less(s[i], s[j])
  }

  /** No element appears twice. */
  predicate NoDuplicates(s: seq<String>) {
    forall i, j :: 0 <= i < j < |s| ==> s[i] != s[j]
  }

  lemma StrictlySortedNoDuplicates(s: seq<String>)
    requires StrictlySorted(s)
    ensures NoDuplicates(s)
  {
    forall i, j | 0 <= i < j < |s| ensures s[i] != s[j] {
      LessIrreflexive(s[i]);
    }
  }

  /** Inserts `x` at its place in a strictly sorted list unless it is there already. */
  function Insert(s: seq<String>, x: String): (r: seq<String>)
    requires StrictlySorted(s)
    ensures StrictlySorted(r)
    ensures forall y :: y in r <==> y in s || y == x
  {
    if s == [] then [x]
    else if Less(x, s[0]) then
      assert forall j :: 0 <= j < |s| ==> Less(x, s[j]) by {
        forall j | 0 < j < |s| ensures Less(x, s[j]) { LessTransitive(x, s[0], s[j]); }
      }
      [x] + s
    else if x == s[0] then s
    else
      var rest := Insert(s[1..], x);
      assert Less(s[0], x) by { LessTotal(x, s[0]); }
      assert forall y :: y in rest ==> Less(s[0], y);
      var r := [s[0]] + rest;
      assert forall j :: 1 <= j < |r| ==> r[j] in rest;
      r
  }

  /** `sorted(set(xs))`. */
  function SortedDistinct(xs: seq<String>): (r: seq<String>)
    ensures StrictlySorted(r)
    ensures forall y :: y in r <==> y in xs
  {
    if xs == [] then [] else Insert(SortedDistinct(xs[..|xs| - 1]), xs[|xs| - 1])
  }

  /** A strictly sorted list is determined by its elements. */
  lemma {:induction false} SortedUnique(a: seq<String>, b: seq<String>)
    requires StrictlySorted(a) && StrictlySorted(b)
    requires forall y :: y in a <==> y in b
    ensures a == b
  {
    assert a != [] ==> a[0] in b;
    assert b != [] ==> b[0] in a;
    if a != [] && b != [] {
      assert b[0] in b && a[0] in a;
      var j :| 0 <= j < |a| && a[j] == b[0];
      var k :| 0 <= k < |b| && b[k] == a[0];
      if j != 0 && k != 0 {
        LessAsymmetric(a[0], b[0]);
        assert false;
      }
      if j != 0 {
        LessIrreflexive(a[0]);
        assert false;
      }
      assert a[0] == b[0];
      assert a == [a[0]] + a[1..] && b == [b[0]] + b[1..];
      forall y ensures y in a[1..] <==> y in b[1..] {
        if y in a[1..] {
          var i :| 1 <= i < |a| && a[i] == y;
          assert Less(a[0], y);
          LessIrreflexive(y);
          assert y in b;
        }
        if y in b[1..] {
          var i :| 1 <= i < |b| && b[i] == y;
          assert Less(b[0], y);
          LessIrreflexive(y);
          assert y in a;
        }
      }
      assert StrictlySorted(a[1..]) && StrictlySorted(b[1..]);
      SortedUnique(a[1..], b[1..]);
    }
  }

  /** A strictly sorted list is its own `sorted(set(..))`, and so is any list with the same elements. */
  lemma SortedDistinctOfSame(xs: seq<String>, s: seq<String>)
    requires StrictlySorted(s)
    requires forall y :: y in s <==> y in xs
    ensures SortedDistinct(xs) == s
  {
    SortedUnique(SortedDistinct(xs), s);
  }

  /** `s.pop(s.index(x))` on a list that holds `x`: removes its first occurrence. */
  function RemoveFirst(s: seq<String>, x: String): (r: seq<String>)
    requires x in s
    ensures |r| == |s| - 1
    ensures forall y :: y in r ==> y in s
    ensures forall y :: y in s && y != x ==> y in r
  {
    if s[0] == x then s[1..] else [s[0]] + RemoveFirst(s[1..], x)
  }

  /** Removing an element of a strictly sorted list keeps it strictly sorted and drops exactly that element. */
  lemma {:induction false} RemoveFirstSorted(s: seq<String>, x: String)
    requires x in s && StrictlySorted(s)
    ensures StrictlySorted(RemoveFirst(s, x))
    ensures x !in RemoveFirst(s, x)
  {
    if s[0] == x {
      forall j | 1 <= j < |s| ensures s[j] != x { LessIrreflexive(x); }
    } else {
      RemoveFirstSorted(s[1..], x);
      var r := RemoveFirst(s, x);
      forall j | 1 <= j < |r| ensures Less(r[0], r[j]) {
        assert r[j] in RemoveFirst(s[1..], x);
      }
    }
  }
}
