/** Comparing strings by code point, and stable sorting by a comparison. */
module Ordering {

  /** Python's `<` on strings. */
  predicate Before(a: string, b: string) {
    if b == [] then false
    else if a == [] then true
    else a[0] < b[0] || (a[0] == b[0] && Before(a[1..], b[1..]))
  }

  /** Lexicographic by code points: `a` is a proper prefix of `b`, or has the smaller character at the first
      difference. */
  lemma {:induction false} BeforeIsLexicographic(a: string, b: string)
    ensures Before(a, b) <==> (a <= b && a != b) || exists k :: FirstSmaller(a, b, k)
  {
    if a != [] && b != [] {
      BeforeIsLexicographic(a[1..], b[1..]);
      assert a == [a[0]] + a[1..] && b == [b[0]] + b[1..];
      if a[0] == b[0] {
        if k :| FirstSmaller(a[1..], b[1..], k) {
          assert a[..k + 1] == [a[0]] + a[1..][..k] && b[..k + 1] == [b[0]] + b[1..][..k];
          assert FirstSmaller(a, b, k + 1);
        }
        if k :| FirstSmaller(a, b, k) {
          assert a[1..][..k - 1] == a[..k][1..] && b[1..][..k - 1] == b[..k][1..];
          assert FirstSmaller(a[1..], b[1..], k - 1);
        }
      } else if a[0] < b[0] {
        assert FirstSmaller(a, b, 0);
      } else {
        forall k ensures !FirstSmaller(a, b, k) {
          if 0 < k < |a| && k < |b| {
            assert a[..k][0] == a[0] && b[..k][0] == b[0];
          }
        }
      }
    }
  }

  predicate FirstSmaller(a: string, b: string, k: int) {
    0 <= k < |a| && k < |b| && a[..k] == b[..k] && a[k] < b[k]
  }

  lemma {:induction false} BeforeIrreflexive(a: string)
    ensures !Before(a, a)
  {
    if a != [] {
      BeforeIrreflexive(a[1..]);
    }
  }

  lemma {:induction false} BeforeTransitive(a: string, b: string, c: string)
    requires Before(a, b) && Before(b, c)
    ensures Before(a, c)
  {
    if a != [] && a[0] == b[0] && b[0] == c[0] {
      BeforeTransitive(a[1..], b[1..], c[1..]);
    }
  }

  lemma {:induction false} BeforeTotal(a: string, b: string)
    ensures a == b || Before(a, b) || Before(b, a)
  {
    if a != [] && b != [] && a[0] == b[0] {
      BeforeTotal(a[1..], b[1..]);
      assert a == [a[0]] + a[1..] && b == [b[0]] + b[1..];
    }
  }

  function Insert<T>(x: T, xs: seq<T>, less: (T, T) -> bool): (r: seq<T>)
    ensures multiset(r) == multiset{x} + multiset(xs)
  {
    if xs == [] then [x]
    else if less(xs[0], x) then
      assert xs == [xs[0]] + xs[1..];
      [xs[0]] + Insert(x, xs[1..], less)
    else [x] + xs
  }

  /** Stable insertion sort: Python's `sorted` for a key whose order is `less`. */
  function SortBy<T>(xs: seq<T>, less: (T, T) -> bool): (r: seq<T>)
    ensures multiset(r) == multiset(xs)
    ensures |r| == |xs|
  {
    if xs == [] then []
    else
      assert xs == [xs[0]] + xs[1..];
      var r := Insert(xs[0], SortBy(xs[1..], less), less);
      assert |multiset(r)| == |multiset(xs)|;
      r
  }

  ghost predicate Sorted<T>(xs: seq<T>, less: (T, T) -> bool) {
    forall i, j :: 0 <= i < j < |xs| ==> !less(xs[j], xs[i])
  }

  /** `less` compares some key that is totally ordered. */
  ghost predicate KeyOrder<T(!new)>(less: (T, T) -> bool) {
    && (forall a, b :: less(a, b) ==> !less(b, a))
    && (forall a, b, c :: !less(b, a) && !less(c, b) ==> !less(c, a))
  }

  lemma {:induction false} InsertSorted<T(!new)>(x: T, xs: seq<T>, less: (T, T) -> bool)
    requires KeyOrder(less) && Sorted(xs, less)
    ensures Sorted(Insert(x, xs, less), less)
  {
    if xs != [] {
      var r := Insert(x, xs, less);
      if less(xs[0], x) {
        InsertSorted(x, xs[1..], less);
        forall j | 0 < j < |r| ensures !less(r[j], r[0]) {
          assert r[1..][j - 1] in multiset(r[1..]);
          assert r[j] == x || r[j] in multiset(xs[1..]);
        }
        assert forall i :: 0 < i < |r| ==> r[i] == r[1..][i - 1];
      } else {
        forall j | 0 < j < |r| ensures !less(r[j], x) {
          assert r[j] == xs[j - 1];
          if j > 1 { assert !less(xs[j - 1], xs[0]); }
        }
        assert forall i :: 0 < i < |r| ==> r[i] == xs[i - 1];
      }
    }
  }

  lemma {:induction false} SortBySorts<T(!new)>(xs: seq<T>, less: (T, T) -> bool)
    requires KeyOrder(less)
    ensures Sorted(SortBy(xs, less), less)
  {
    if xs != [] {
      SortBySorts(xs[1..], less);
      InsertSorted(xs[0], SortBy(xs[1..], less), less);
    }
  }

  /** `a` stands before `b` in `xs`. */
  ghost predicate Precedes<T(!new)>(xs: seq<T>, a: T, b: T) {
    exists i, j :: 0 <= i < j < |xs| && xs[i] == a && xs[j] == b
  }

  /** In key order, and among equal keys in the order of `xs`. */
  ghost predicate StablyBefore<T(!new)>(xs: seq<T>, less: (T, T) -> bool, a: T, b: T) {
    less(a, b) || (!less(b, a) && Precedes(xs, a, b))
  }

  lemma ConsSplit<T>(xs: seq<T>, n: nat, x: T)
    requires xs != [] && n < |xs|
    ensures [xs[0]] + (xs[1..][..n] + [x] + xs[1..][n..]) == xs[..n + 1] + [x] + xs[n + 1..]
  {
  }

  lemma {:induction false} InsertPlaces<T(!new)>(x: T, xs: seq<T>, less: (T, T) -> bool) returns (k: nat)
    ensures k <= |xs| && Insert(x, xs, less) == xs[..k] + [x] + xs[k..]
    ensures forall i :: 0 <= i < k ==> less(xs[i], x)
  {
    if xs == [] || !less(xs[0], x) {
      k := 0;
      assert xs[..0] == [] && xs[0..] == xs;
    } else {
      var rest := InsertPlaces(x, xs[1..], less);
      k := rest + 1;
      ConsSplit(xs, rest, x);
      assert forall i :: 0 < i < k ==> xs[i] == xs[1..][i - 1];
    }
  }

  lemma LaterPrecedes<T(!new)>(xs: seq<T>, a: T, b: T)
    requires xs != []
    ensures Precedes(xs[1..], a, b) ==> Precedes(xs, a, b)
    ensures a == xs[0] && b in xs[1..] ==> Precedes(xs, a, b)
  {
    if Precedes(xs[1..], a, b) {
      var i, j :| 0 <= i < j < |xs[1..]| && xs[1..][i] == a && xs[1..][j] == b;
      assert xs[i + 1] == a && xs[j + 1] == b;
    }
    if a == xs[0] && b in xs[1..] {
      var j :| 0 <= j < |xs[1..]| && xs[1..][j] == b;
      assert xs[0] == a && xs[j + 1] == b;
    }
  }

  lemma SortUnfold<T>(xs: seq<T>, less: (T, T) -> bool)
    requires xs != []
    ensures SortBy(xs, less) == Insert(xs[0], SortBy(xs[1..], less), less)
  {
  }

  lemma SortMembers<T>(xs: seq<T>, less: (T, T) -> bool, x: T)
    ensures x in SortBy(xs, less) <==> x in xs
  {
    assert x in multiset(SortBy(xs, less)) <==> x in multiset(xs);
  }

  lemma {:induction false} SortIsStable<T(!new)>(xs: seq<T>, less: (T, T) -> bool, i: nat, j: nat)
    requires KeyOrder(less) && i < j < |xs|
    ensures StablyBefore(xs, less, SortBy(xs, less)[i], SortBy(xs, less)[j])
  {
    hide SortBy, Insert, Precedes;
    var x, rest := xs[0], SortBy(xs[1..], less);
    SortUnfold(xs, less);
    var k := InsertPlaces(x, rest, less);
    SortBySorts(xs, less);
    if i == k {
      SortMembers(xs[1..], less, rest[j - 1]);
      LaterPrecedes(xs, x, rest[j - 1]);
    } else if j != k {
      var i', j' := if i < k then i else i - 1, if j < k then j else j - 1;
      SortIsStable(xs[1..], less, i', j');
      LaterPrecedes(xs, rest[i'], rest[j']);
    }
  }
}
