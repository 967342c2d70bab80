/**
 * The two series builders the projection uses, over exact reals:
 * `np.arange(0, stop)` and `np.linspace(start, stop, n)`.
 */
module Series {

  /** The least integer not below x. */
  function Ceil(x: real): (c: int)
    ensures x <= c as real < x + 1.0
  {
    var f := x.Floor;
    if f as real == x then f else f + 1
  }

  /** Ceil is determined by its bounds: any integer in [x, x + 1) is the ceiling. */
  lemma CeilUnique(x: real, c: int)
    requires x <= c as real < x + 1.0
    ensures Ceil(x) == c
  {
  }

  /** Shifting by a whole number shifts the ceiling by the same amount. */
  lemma CeilShift(x: real, k: int)
    ensures Ceil(x + k as real) == Ceil(x) + k
  {
    CeilUnique(x + k as real, Ceil(x) + k);
  }

  /**
   * `np.arange(0, stop)` with the default step 1: the integers of the
   * half-open interval [0, stop), in increasing order from 0.
   */
  function Arange(stop: real): (r: seq<int>)
    ensures forall i :: 0 <= i < |r| ==> r[i] == i
    ensures forall k: int :: k in r <==> 0 <= k && (k as real) < stop
  {
    var n := if stop <= 0.0 then 0 else Ceil(stop);
    var ks := seq(n, i => i);
    assert forall k: int :: k in ks <==> 0 <= k < n by {
      forall k: int | 0 <= k < n ensures k in ks { assert ks[k] == k; }
    }
    ks
  }

  /** The number of points np.arange(0, stop) yields: ceil(stop), or none when stop <= 0. */
  lemma ArangeLength(stop: real)
    ensures |Arange(stop)| == if stop <= 0.0 then 0 else Ceil(stop)
  {
    var r := Arange(stop);
    var n := |r|;
    assert forall i :: 0 <= i < n ==> r[i] < n;
    assert n !in r;
    if stop > 0.0 {
      assert n as real >= stop;
      assert n > 0 by { assert 0 in r; }
      assert r[n - 1] == n - 1;
      assert (n - 1) as real < stop;
      CeilUnique(stop, n);
    } else {
      assert 0 !in r;
    }
  }

  /** The uniform gap between consecutive points of an n-point linspace, n >= 2. */
  function Step(start: real, stop: real, n: nat): real
    requires n >= 2
  {
    (stop - start) / ((n - 1) as real)
  }

  /**
   * `np.linspace(start, stop, n)` with its default endpoint, built as numpy
   * builds it: point i is start + i * step, and then, when there are at least
   * two points, the last one is overwritten with stop. One point is just
   * start, zero points none.
   */
  function Linspace(start: real, stop: real, n: nat): (r: seq<real>)
    ensures |r| == n
    ensures n >= 1 ==> r[0] == start
    ensures n >= 2 ==> r[n - 1] == stop
  {
    if n == 1 then [start]
    else seq(n, i requires 0 <= i < n => if i == n - 1 then stop else start + (i as real) * Step(start, stop, n))
  }

  /**
   * Point i of a linspace of at least two points sits i steps from start,
   * the overwritten last point included: n - 1 steps reach stop exactly.
   */
  lemma LinspaceAt(start: real, stop: real, n: nat, i: nat)
    requires n >= 2 && i < n
    ensures Linspace(start, stop, n)[i] == start + (i as real) * Step(start, stop, n)
  {
    if i == n - 1 {
      var m := (n - 1) as real;
      assert Step(start, stop, n) == (stop - start) / m;
      assert m * ((stop - start) / m) == stop - start;
    }
  }

  /** Each point of s lies exactly `step` beyond the one before it. */
  predicate EvenlySpaced(s: seq<real>, step: real)
  {
    forall i :: 0 <= i < |s| - 1 ==> s[i + 1] - s[i] == step
  }

  /** Consecutive points differ by exactly one step: the series is evenly spaced. */
  lemma LinspaceEvenlySpaced(start: real, stop: real, n: nat)
    requires n >= 2
    ensures EvenlySpaced(Linspace(start, stop, n), Step(start, stop, n))
  {
    var s := Step(start, stop, n);
    forall i | 0 <= i < n - 1
      ensures Linspace(start, stop, n)[i + 1] - Linspace(start, stop, n)[i] == s
    {
      LinspaceAt(start, stop, n, i);
      LinspaceAt(start, stop, n, i + 1);
      assert ((i + 1) as real) * s == (i as real) * s + s;
    }
  }

  /** Between i and j (i <= j) a linspace point is j - i steps further on. */
  lemma LinspaceDistance(start: real, stop: real, n: nat, i: nat, j: nat)
    requires n >= 2 && i <= j < n
    ensures Linspace(start, stop, n)[j] - Linspace(start, stop, n)[i] == ((j - i) as real) * Step(start, stop, n)
  {
    LinspaceAt(start, stop, n, i);
    LinspaceAt(start, stop, n, j);
    var s := Step(start, stop, n);
    assert (j as real) * s - (i as real) * s == ((j - i) as real) * s;
  }

  /** A series running down from start to stop never rises. */
  lemma LinspaceNonIncreasing(start: real, stop: real, n: nat, i: nat, j: nat)
    requires stop <= start
    requires i <= j < n
    ensures Linspace(start, stop, n)[j] <= Linspace(start, stop, n)[i]
  {
    if n >= 2 {
      LinspaceDistance(start, stop, n, i, j);
      var s := Step(start, stop, n);
      var m := (n - 1) as real;
      assert s * m == stop - start;
      assert s <= 0.0;
      assert ((j - i) as real) * s <= 0.0;
    }
  }

  /** Every point of a series running down from start to stop lies in [stop, start]. */
  lemma LinspaceBounds(start: real, stop: real, n: nat, i: nat)
    requires stop <= start
    requires i < n
    ensures stop <= Linspace(start, stop, n)[i] <= start
  {
    LinspaceNonIncreasing(start, stop, n, 0, i);
    LinspaceNonIncreasing(start, stop, n, i, n - 1);
    if n == 1 {
      assert Linspace(start, stop, n) == [start];
    }
  }
}
