/** Ascending sequences of numbers, as Python's `sorted(set(...))` gives them. */
module Sorted {

  predicate Ascending(s: seq<nat>) { forall i, j | 0 <= i < j < |s| :: s[i] < s[j] }

  method Insert(s: seq<nat>, p: nat) returns (r: seq<nat>)
    requires Ascending(s) && p !in s
    ensures Ascending(r) && forall x :: x in r <==> x in s || x == p
  {
    var i := 0;
    while i < |s| && s[i] < p
      invariant 0 <= i <= |s| && forall j | 0 <= j < i :: s[j] < p
    {
      i := i + 1;
    }
    assert s == s[..i] + s[i..];
    r := s[..i] + [p] + s[i..];
  }

  method SortedSet(xs: set<nat>) returns (r: seq<nat>)
    ensures Ascending(r) && forall x :: x in r <==> x in xs
  {
    r := [];
    var left := xs;
    while left != {}
      invariant left <= xs && Ascending(r) && forall x :: x in r <==> x in xs && x !in left
      decreases left
    {
      var x :| x in left;
      left := left - {x};
      r := Insert(r, x);
    }
  }
}
