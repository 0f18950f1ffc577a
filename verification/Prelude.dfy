/** Small general-purpose types and functions used by every other module. */
module Prelude {

  datatype Option<+T> = None | Some(value: T)

  datatype Result<+T, +E> = Success(value: T) | Failure(error: E)

  function Min(a: int, b: int): int {
    if a <= b then a else b
  }

  function Max(a: int, b: int): int {
    if a >= b then a else b
  }

  function Abs(a: int): nat {
    if a < 0 then -a else a
  }

  /** The first element of `xs` that satisfies `p`: Python's `next((x for x in xs if p(x)), None)`. */
  function FirstWhere<T>(xs: seq<T>, p: T -> bool): (r: Option<T>)
    ensures r.Some? ==> exists k :: 0 <= k < |xs| && xs[k] == r.value && p(xs[k]) && forall j :: 0 <= j < k ==>
        !p(xs[j])
    ensures r.None? ==> forall x :: x in xs ==> !p(x)
  {
    if xs == [] then None
    else if p(xs[0]) then assert xs[0] == xs[0] && p(xs[0]); Some(xs[0])
    else
      var rest := FirstWhere(xs[1..], p);
      assert rest.Some? ==> exists k :: 1 <= k < |xs| && xs[k] == rest.value && p(xs[k]) && forall j :: 0 <= j < k ==>
          !p(xs[j]) by {
        if rest.Some? {
          var k :| 0 <= k < |xs[1..]| && xs[1..][k] == rest.value && p(xs[1..][k]) && forall j :: 0 <= j < k ==>
              !p(xs[1..][j]);
          assert xs[k + 1] == rest.value && p(xs[k + 1]);
          forall j | 0 <= j < k + 1 ensures !p(xs[j]) {
            if j > 0 { assert xs[1..][j - 1] == xs[j]; }
          }
        }
      }
      rest
  }

  ghost predicate Ascending(xs: seq<nat>) {
    forall i, j :: 0 <= i < j < |xs| ==> xs[i] < xs[j]
  }

  /** The indices of `lo..hi` that satisfy `p`, in increasing order. */
  function IndicesWhere(lo: nat, hi: nat, p: nat -> bool): (r: seq<nat>)
    ensures Ascending(r)
    ensures forall i :: i in r <==> lo <= i < hi && p(i)
    decreases hi
  {
    if hi <= lo then []
    else
      var rest := IndicesWhere(lo, hi - 1, p);
      assert forall i :: 0 <= i < |rest| ==> rest[i] in rest;
      if p(hi - 1) then rest + [hi - 1] else rest
  }

  lemma PrefixStep<T>(xs: seq<T>, i: nat)
    requires i < |xs|
    ensures xs[..i + 1] == xs[..i] + [xs[i]]
  {
  }

  ghost predicate Distinct<T>(xs: seq<T>) {
    forall i, j :: 0 <= i < j < |xs| ==> xs[i] != xs[j]
  }

  /** Python's `[x for x in xs if p(x)]`. */
  function Filter<T(!new)>(xs: seq<T>, p: T -> bool): (r: seq<T>)
    ensures forall x :: x in r <==> x in xs && p(x)
  {
    if xs == [] then []
    else
      var rest := Filter(xs[1..], p);
      assert forall x :: x in xs <==> x == xs[0] || x in xs[1..];
      if p(xs[0]) then [xs[0]] + rest else rest
  }

  lemma {:induction false} SubsetSize<T>(a: set<T>, b: set<T>)
    requires a <= b
    ensures |a| <= |b|
  {
    if a != {} {
      var x :| x in a;
      SubsetSize(a - {x}, b - {x});
    }
  }

  lemma {:induction false} FilterDistinct<T(!new)>(xs: seq<T>, p: T -> bool)
    requires Distinct(xs)
    ensures Distinct(Filter(xs, p))
  {
    if xs != [] {
      FilterDistinct(xs[1..], p);
      var rest := Filter(xs[1..], p);
      assert forall j :: 0 <= j < |rest| ==> rest[j] in rest;
      assert xs[0] !in rest;
    }
  }
}
