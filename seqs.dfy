/**
 * `Array.prototype.filter` and the order-preservation property every
 * filtered list in the application relies on.
 */
module Seqs {
  import opened Wrappers

  /** `r` can be obtained from `s` by deleting elements, keeping the order of the rest. */
  predicate SubsequenceOf<T(==)>(r: seq<T>, s: seq<T>)
    decreases |s|
  {
    if r == [] then true
    else if s == [] then false
    else if r[0] == s[0] then SubsequenceOf(r[1..], s[1..])
    else SubsequenceOf(r, s[1..])
  }

  /** `s.filter(f)`. */
  function Filter<T(==,!new)>(f: T -> bool, s: seq<T>): (r: seq<T>)
    ensures |r| <= |s|
    ensures forall i :: 0 <= i < |r| ==> f(r[i])
    ensures forall x :: x in r <==> x in s && f(x)
    ensures SubsequenceOf(r, s)
    decreases |s|
  {
    if s == [] then []
    else if f(s[0]) then
      var rest := Filter(f, s[1..]);
      assert ([s[0]] + rest)[1..] == rest;
      [s[0]] + rest
    else
      Filter(f, s[1..])
  }

  /** Filtering keeps every passing element as often as it occurs, and no other. */
  lemma {:induction false} FilterCounts<T(!new)>(f: T -> bool, s: seq<T>)
    ensures forall x :: multiset(Filter(f, s))[x] == if f(x) then multiset(s)[x] else 0
    decreases |s|
  {
    if s != [] {
      FilterCounts(f, s[1..]);
      assert s == [s[0]] + s[1..];
      assert multiset(s) == multiset{s[0]} + multiset(s[1..]);
      if f(s[0]) {
        var rest := Filter(f, s[1..]);
        assert multiset([s[0]] + rest) == multiset{s[0]} + multiset(rest);
      }
    }
  }

  /** When every element passes, filtering changes nothing. */
  lemma {:induction false} FilterKeepsAll<T(!new)>(f: T -> bool, s: seq<T>)
    requires forall i :: 0 <= i < |s| ==> f(s[i])
    ensures Filter(f, s) == s
    decreases |s|
  {
    if s != [] {
      FilterKeepsAll(f, s[1..]);
      assert [s[0]] + s[1..] == s;
    }
  }

  /** Filtering a list with one element appended filters the list and then that element. */
  lemma {:induction false} FilterAppend<T(!new)>(f: T -> bool, s: seq<T>, x: T)
    ensures Filter(f, s + [x]) == Filter(f, s) + (if f(x) then [x] else [])
    decreases |s|
  {
    if s == [] {
      assert s + [x] == [x];
      assert Filter(f, [x][1..]) == [];
    } else {
      assert (s + [x])[1..] == s[1..] + [x];
      FilterAppend(f, s[1..], x);
    }
  }

  /** The length of a filtered list is the number of positions whose element passes. */
  lemma {:induction false} FilterLength<T(!new)>(f: T -> bool, s: seq<T>)
    ensures |Filter(f, s)| == |PassingPositions(f, s)|
    decreases |s|
  {
    if s == [] {
      assert PassingPositions(f, s) == {};
    } else {
      var p, x := s[..|s| - 1], s[|s| - 1];
      assert s == p + [x];
      FilterLength(f, p);
      FilterAppend(f, p, x);
      PassingPositionsAppend(f, p, x);
    }
  }

  /** The positions of `s` whose element passes `f`. */
  ghost function PassingPositions<T>(f: T -> bool, s: seq<T>): set<int> {
    set i | 0 <= i < |s| && f(s[i])
  }

  /** Appending one element adds its position exactly when it passes. */
  lemma PassingPositionsAppend<T>(f: T -> bool, p: seq<T>, x: T)
    ensures |PassingPositions(f, p + [x])| == |PassingPositions(f, p)| + if f(x) then 1 else 0
  {
    var s := p + [x];
    var before, after := PassingPositions(f, p), PassingPositions(f, s);
    var last := if f(x) then {|p|} else {};
    forall i | i in after ensures i in before + last {
      if i < |p| { assert s[i] == p[i]; }
    }
    forall i | i in before + last ensures i in after {
      if i < |p| { assert s[i] == p[i]; }
    }
    assert after == before + last;
    assert before !! last;
  }

  /** Filtering by two predicates that agree on the list's elements gives the same result. */
  lemma {:induction false} FilterCongruent<T(!new)>(f: T -> bool, g: T -> bool, s: seq<T>)
    requires forall i :: 0 <= i < |s| ==> f(s[i]) == g(s[i])
    ensures Filter(f, s) == Filter(g, s)
    decreases |s|
  {
    if s != [] {
      FilterCongruent(f, g, s[1..]);
    }
  }

  /** Sum of `f` over a list (`reduce((acc, x) => acc + f(x), 0)`). */
  function SumOf<T>(f: T -> real, s: seq<T>): (r: real)
    ensures (forall i :: 0 <= i < |s| ==> f(s[i]) >= 0.0) ==> r >= 0.0
    decreases |s|
  {
    if s == [] then 0.0 else f(s[0]) + SumOf(f, s[1..])
  }

  /** `s.find(f)`: the first element that passes, if any. */
  function FindFirst<T>(f: T -> bool, s: seq<T>): (r: Option<T>)
    ensures r.None? <==> forall i :: 0 <= i < |s| ==> !f(s[i])
    ensures r.Some? ==> exists i :: 0 <= i < |s| && s[i] == r.value && f(s[i])
                                  && forall j :: 0 <= j < i ==> !f(s[j])
    decreases |s|
  {
    if s == [] then None
    else if f(s[0]) then Some(s[0])
    else
      FindFirst(f, s[1..])
  }
}
