/** The order statistic that the entropy learner cuts at: a threshold that at most a given part of the
    figures is above, and at least that part is not below. */
module Quantiles {
  /** How many positions a chunk is meant to hold. */
  type Length = r: real | r > 0.0 witness 1.0

  predicate Ascending(xs: seq<real>) {
    forall i, j :: 0 <= i < j < |xs| ==> xs[i] <= xs[j]
  }

  function Insert(x: real, xs: seq<real>): (r: seq<real>)
    ensures |r| == |xs| + 1 && forall y :: y in r <==> y == x || y in xs
  {
    if xs == [] then [x]
    else if x <= xs[0] then [x] + xs
    else
      assert xs == [xs[0]] + xs[1..];
      [xs[0]] + Insert(x, xs[1..])
  }

  function Sort(xs: seq<real>): (r: seq<real>)
    ensures |r| == |xs|
  {
    if xs == [] then [] else Insert(xs[0], Sort(xs[1..]))
  }

  lemma {:induction false} InsertAscends(x: real, xs: seq<real>)
    requires Ascending(xs)
    ensures Ascending(Insert(x, xs))
  {
    if xs != [] && x > xs[0] {
      InsertAscends(x, xs[1..]);
      var rest := Insert(x, xs[1..]);
      forall i | 0 <= i < |rest| ensures xs[0] <= rest[i] {
        assert rest[i] in rest;
      }
    }
  }

  lemma {:induction false} SortAscends(xs: seq<real>)
    ensures Ascending(Sort(xs))
  {
    if xs != [] {
      SortAscends(xs[1..]);
      InsertAscends(xs[0], Sort(xs[1..]));
    }
  }

  /** How many are above `v`. */
  function Above(xs: seq<real>, v: real): (n: nat)
    ensures n <= |xs|
  {
    if xs == [] then 0 else (if xs[0] > v then 1 else 0) + Above(xs[1..], v)
  }

  /** How many are below `v`. */
  function Below(xs: seq<real>, v: real): (n: nat)
    ensures n <= |xs|
  {
    if xs == [] then 0 else (if xs[0] < v then 1 else 0) + Below(xs[1..], v)
  }

  lemma {:induction false} InsertCounts(x: real, xs: seq<real>, v: real)
    ensures Above(Insert(x, xs), v) == Above([x] + xs, v) && Below(Insert(x, xs), v) == Below([x] + xs, v)
  {
    assert ([x] + xs)[1..] == xs;
    if xs != [] && x > xs[0] {
      InsertCounts(x, xs[1..], v);
      assert ([x] + xs[1..])[1..] == xs[1..];
      assert Insert(x, xs)[1..] == Insert(x, xs[1..]);
    } else {
      assert Insert(x, xs) == [x] + xs;
    }
  }

  lemma {:induction false} SortCounts(xs: seq<real>, v: real)
    ensures Above(Sort(xs), v) == Above(xs, v) && Below(Sort(xs), v) == Below(xs, v)
  {
    if xs != [] {
      var rest := Sort(xs[1..]);
      SortCounts(xs[1..], v);
      InsertCounts(xs[0], rest, v);
      assert ([xs[0]] + rest)[1..] == rest;
    }
  }

  lemma {:induction false} FewAbove(xs: seq<real>, v: real, n: nat)
    requires n <= |xs| && forall i :: 0 <= i < n ==> xs[i] <= v
    ensures Above(xs, v) <= |xs| - n
  {
    if n > 0 {
      FewAbove(xs[1..], v, n - 1);
    }
  }

  lemma {:induction false} FewBelow(xs: seq<real>, v: real, n: nat)
    requires n <= |xs| && forall i :: n <= i < |xs| ==> xs[i] >= v
    ensures Below(xs, v) <= n
  {
    if xs != [] {
      FewBelow(xs[1..], v, if n > 0 then n - 1 else 0);
    }
  }

  /** The place of the quantile among `n` figures in order: all but one in `target` come before it. */
  function Place(n: nat, target: Length): (k: nat)
    requires n > 0
    ensures k < n
  {
    var k := (n as real * (1.0 - 1.0 / target)).Floor;
    if k < 0 then 0 else if k < n then k else n - 1
  }

  function Quantile(xs: seq<real>, target: Length): real
    requires xs != []
  {
    Sort(xs)[Place(|xs|, target)]
  }

  /** At most one figure in `target` is above the quantile, and at least one in `target` is not below it. */
  lemma QuantileIs(xs: seq<real>, target: Length)
    requires xs != []
    ensures Above(xs, Quantile(xs, target)) as real <= Part(|xs|, target)
    ensures target >= 1.0 ==> (|xs| - Below(xs, Quantile(xs, target))) as real >= Part(|xs|, target)
  {
    hide Sort, Above, Below, Place, Part;
    var n, k, all := |xs|, Place(|xs|, target), Sort(xs);
    var v := all[k];
    SortAscends(xs);
    SortCounts(xs, v);
    FewAbove(all, v, k + 1);
    FewBelow(all, v, k);
    PlaceIs(n, target);
  }

  /** One in `target` of `n`. */
  function Part(n: nat, target: Length): real {
    n as real / target
  }

  lemma PlaceIs(n: nat, target: Length)
    requires n > 0
    ensures (n - 1 - Place(n, target)) as real <= Part(n, target)
    ensures target >= 1.0 ==> Part(n, target) <= (n - Place(n, target)) as real
  {
    var x, y := n as real, Part(n, target);
    LessOnePart(n, target);
    var k := (x - y).Floor;
    PartWithin(n, target);
    assert k as real <= x - y < k as real + 1.0;
  }

  lemma LessOnePart(n: nat, target: Length)
    ensures n as real * (1.0 - 1.0 / target) == n as real - Part(n, target)
  {
    var x := n as real;
    assert x * (1.0 / target) == x / target;
  }

  lemma PartWithin(n: nat, target: Length)
    requires n > 0
    ensures Part(n, target) > 0.0 && (target >= 1.0 ==> Part(n, target) <= n as real)
  {
    var y := Part(n, target);
    assert y * target == n as real;
    if target >= 1.0 {
      assert y * (target - 1.0) >= 0.0;
    }
  }
}
