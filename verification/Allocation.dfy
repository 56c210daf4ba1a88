/** Largest-remainder allocation: dividing a round's evaluations among agents in proportion to weights,
    over exact nonnegative reals. */
module Allocation {
  function Sum(xs: seq<real>): real {
    if xs == [] then 0.0 else xs[0] + Sum(xs[1..])
  }

  function Count(ns: seq<nat>): nat {
    if ns == [] then 0 else ns[0] + Count(ns[1..])
  }

  predicate Nonnegative(xs: seq<real>) {
    forall i :: 0 <= i < |xs| ==> xs[i] >= 0.0
  }

  /** What is divided: the weights, or equal ones if they sum to zero. */
  function Effective(weights: seq<real>): (w: seq<real>)
    ensures |w| == |weights|
  {
    if Sum(weights) > 0.0 then weights else Ones(|weights|)
  }

  function Ones(n: nat): (w: seq<real>)
    ensures |w| == n && forall i :: 0 <= i < n ==> w[i] == 1.0
  {
    if n == 0 then [] else [1.0] + Ones(n - 1)
  }

  function Quota(rest: nat, x: real, z: real): real
    requires z > 0.0
  {
    rest as real * x / z
  }

  function Quotas(rest: nat, w: seq<real>, z: real): (q: seq<real>)
    requires z > 0.0
    ensures |q| == |w| && forall i :: 0 <= i < |w| ==> q[i] == Quota(rest, w[i], z)
  {
    if w == [] then [] else [Quota(rest, w[0], z)] + Quotas(rest, w[1..], z)
  }

  // ----- rounding down -----

  function Fraction(x: real): (f: real)
    ensures 0.0 <= f < 1.0
  {
    x - x.Floor as real
  }

  function Floors(q: seq<real>): (ns: seq<nat>)
    requires Nonnegative(q)
    ensures |ns| == |q| && forall i :: 0 <= i < |q| ==> ns[i] == q[i].Floor
  {
    if q == [] then [] else [q[0].Floor] + Floors(q[1..])
  }

  function Fractions(q: seq<real>): (fs: seq<real>)
    ensures |fs| == |q| && forall i :: 0 <= i < |q| ==> fs[i] == Fraction(q[i])
  {
    if q == [] then [] else [Fraction(q[0])] + Fractions(q[1..])
  }

  lemma {:induction false} SumSplits(q: seq<real>)
    requires Nonnegative(q)
    ensures Sum(q) == Count(Floors(q)) as real + Sum(Fractions(q))
  {
    if q != [] {
      SumSplits(q[1..]);
      assert Floors(q)[1..] == Floors(q[1..]) && Fractions(q)[1..] == Fractions(q[1..]);
    }
  }

  lemma {:induction false} QuotasSum(rest: nat, w: seq<real>, z: real)
    requires z > 0.0
    ensures Sum(Quotas(rest, w, z)) == Quota(rest, Sum(w), z)
  {
    hide Quota;
    if w != [] {
      QuotasSum(rest, w[1..], z);
      assert Quotas(rest, w, z)[1..] == Quotas(rest, w[1..], z);
      QuotaAdds(rest, w[0], Sum(w[1..]), z);
    } else {
      QuotaAdds(rest, 0.0, 0.0, z);
    }
  }

  lemma QuotaAdds(rest: nat, x: real, y: real, z: real)
    requires z > 0.0
    ensures Quota(rest, x, z) + Quota(rest, y, z) == Quota(rest, x + y, z)
    ensures Quota(rest, 0.0, z) == 0.0
  {
    var r := rest as real;
    assert r * x / z + r * y / z == (r * x + r * y) / z;
    assert r * x + r * y == r * (x + y);
    assert r * 0.0 == 0.0;
  }

  lemma QuotaOfAll(rest: nat, z: real)
    requires z > 0.0
    ensures Quota(rest, z, z) == rest as real
  {
    var r := rest as real;
    assert r * z / z == r;
  }

  lemma QuotaMonotone(rest: nat, x: real, y: real, z: real)
    requires z > 0.0 && x <= y
    ensures Quota(rest, x, z) <= Quota(rest, y, z)
    ensures rest > 0 && x < y ==> Quota(rest, x, z) < Quota(rest, y, z)
    ensures x >= 0.0 ==> Quota(rest, x, z) >= 0.0
  {
    var r := rest as real;
    assert r * x <= r * y;
    Divide(r * x, r * y, z);
    if rest > 0 && x < y {
      assert r * (y - x) > 0.0;
      assert r * y - r * x == r * (y - x);
      DivideStrict(r * x, r * y, z);
    }
    if x >= 0.0 {
      assert r * x >= 0.0;
      Divide(0.0, r * x, z);
    }
  }

  lemma Divide(a: real, b: real, z: real)
    requires z > 0.0 && a <= b
    ensures a / z <= b / z
  {
  }

  lemma DivideStrict(a: real, b: real, z: real)
    requires z > 0.0 && a < b
    ensures a / z < b / z
  {
  }

  // ----- the order of the remainders -----

  /** `i` gets an extra before `j` does: a larger fraction, or the lower index of equal ones. */
  predicate Before(fs: seq<real>, i: nat, j: nat)
    requires i < |fs| && j < |fs|
  {
    fs[i] > fs[j] || (fs[i] == fs[j] && i < j)
  }

  predicate Ordered(fs: seq<real>, order: seq<nat>)
    requires forall p :: 0 <= p < |order| ==> order[p] < |fs|
  {
    forall p, q :: 0 <= p < q < |order| ==> Before(fs, order[p], order[q])
  }

  function Insert(fs: seq<real>, i: nat, order: seq<nat>): (r: seq<nat>)
    requires i < |fs| && forall p :: 0 <= p < |order| ==> order[p] < |fs|
    ensures |r| == |order| + 1 && forall p :: 0 <= p < |r| ==> r[p] < |fs|
    ensures forall j :: j in r <==> j == i || j in order
  {
    if order == [] then [i]
    else if Before(fs, i, order[0]) then [i] + order
    else
      assert order == [order[0]] + order[1..];
      [order[0]] + Insert(fs, i, order[1..])
  }

  /** The first `n` indices in order. */
  function Order(fs: seq<real>, n: nat): (order: seq<nat>)
    requires n <= |fs|
    ensures |order| == n && forall p :: 0 <= p < n ==> order[p] < |fs|
    ensures forall j :: j in order <==> 0 <= j < n
  {
    if n == 0 then [] else Insert(fs, n - 1, Order(fs, n - 1))
  }

  lemma {:induction false} InsertOrdered(fs: seq<real>, i: nat, order: seq<nat>)
    requires i < |fs| && i !in order && (forall p :: 0 <= p < |order| ==> order[p] < |fs|) && Ordered(fs, order)
    ensures Ordered(fs, Insert(fs, i, order))
  {
    if order != [] && !Before(fs, i, order[0]) {
      assert order[0] in order;
      InsertOrdered(fs, i, order[1..]);
      var rest := Insert(fs, i, order[1..]);
      forall q | 0 <= q < |rest| ensures Before(fs, order[0], rest[q]) {
        assert rest[q] in rest;
      }
    }
  }

  lemma {:induction false} OrderIsOrdered(fs: seq<real>, n: nat)
    requires n <= |fs|
    ensures Ordered(fs, Order(fs, n))
  {
    if n > 0 {
      OrderIsOrdered(fs, n - 1);
      InsertOrdered(fs, n - 1, Order(fs, n - 1));
    }
  }

  // ----- what the allocation is -----

  function Floor(total: nat, n: nat, floor: nat): nat
    requires n > 0
  {
    if floor < total / n then floor else total / n
  }

  /** What is left to divide by weight, once each has its floor. */
  function Rest(total: nat, n: nat, floor: nat): (rest: nat)
    requires n > 0
    ensures rest + Floor(total, n, floor) * n == total
  {
    FloorFits(total, n, Floor(total, n, floor));
    total - Floor(total, n, floor) * n
  }

  lemma FloorFits(total: nat, n: nat, f: nat)
    requires n > 0 && f <= total / n
    ensures f * n <= total
  {
    assert f * n <= total / n * n;
  }

  /** The exact quotas of the rest. */
  function Exact(total: nat, weights: seq<real>, floor: nat): (q: seq<real>)
    requires weights != [] && Nonnegative(weights)
    ensures |q| == |weights| && Nonnegative(q)
  {
    EffectiveIsPositive(weights);
    var w := Effective(weights);
    var q := Quotas(Rest(total, |weights|, floor), w, Sum(w));
    forall i | 0 <= i < |q| ensures q[i] >= 0.0 {
      QuotaMonotone(Rest(total, |weights|, floor), w[i], w[i], Sum(w));
    }
    q
  }

  lemma {:induction false} OnesSum(n: nat)
    ensures Sum(Ones(n)) == n as real
  {
    if n > 0 {
      OnesSum(n - 1);
    }
  }

  lemma {:induction false} SumNonnegative(xs: seq<real>)
    requires Nonnegative(xs)
    ensures Sum(xs) >= 0.0
  {
    if xs != [] {
      SumNonnegative(xs[1..]);
    }
  }

  lemma EffectiveIsPositive(weights: seq<real>)
    requires weights != [] && Nonnegative(weights)
    ensures Sum(Effective(weights)) > 0.0 && Nonnegative(Effective(weights))
  {
    OnesSum(|weights|);
  }

  /** The shares are the floor, the quota rounded down, and an extra one for some; they sum to the total;
      and the extras go to those first in order of remainder. */
  ghost predicate LargestRemainder(total: nat, weights: seq<real>, floor: nat, shares: seq<nat>)
    requires weights != [] && Nonnegative(weights)
  {
    var f, q := Floor(total, |weights|, floor), Exact(total, weights, floor);
    && |shares| == |weights|
    && Count(shares) == total
    && (forall i :: 0 <= i < |shares| ==> shares[i] == f + q[i].Floor || shares[i] == f + q[i].Floor + 1)
    && (forall i, j | 0 <= i < |shares| && 0 <= j < |shares|
          :: shares[i] == f + q[i].Floor + 1 && shares[j] == f + q[j].Floor ==> Before(Fractions(q), i, j))
  }

  method AllocateWeights(total: nat, weights: seq<real>, floor: nat) returns (shares: seq<nat>)
    requires Nonnegative(weights)
    ensures weights == [] ==> shares == []
    ensures weights != [] ==> LargestRemainder(total, weights, floor, shares)
  {
    hide Sum, Count, Nonnegative, Fractions, Floors, Order, Effective, Quotas, Ordered, Before;
    var n := |weights|;
    if n == 0 {
      return [];
    }
    var f := Floor(total, n, floor);
    var rest := Rest(total, n, floor);
    var q := Exact(total, weights, floor);
    var share := Floors(q);
    var fs := Fractions(q);
    Remainder(total, weights, floor);
    var left := rest - Count(share);
    var order := Order(fs, n);
    share := GiveExtras(share, fs, order, left);
    shares := Raised(share, f);
    RaisedCount(share, f);
    OrderIsOrdered(fs, n);
    forall i, j | 0 <= i < n && 0 <= j < n && shares[i] == f + q[i].Floor + 1 && shares[j] == f + q[j].Floor
      ensures Before(fs, i, j)
    {
      FirstInOrder(fs, order, left, i, j);
    }
  }

  /** One more for each of the first `extras` in order. */
  method GiveExtras(floors: seq<nat>, ghost fs: seq<real>, order: seq<nat>, extras: nat) returns (share: seq<nat>)
    requires extras <= |floors| == |fs| && order == Order(fs, |fs|)
    ensures |share| == |floors| && Count(share) == Count(floors) + extras
    ensures forall i :: 0 <= i < |floors| ==> share[i] == floors[i] + if i in order[..extras] then 1 else 0
  {
    hide Count, Order;
    share := floors;
    var left, p := extras, 0;
    while p < |order| && left > 0
      invariant p <= |order| && |share| == |floors| && left == extras - p && left >= 0
      invariant Count(share) == Count(floors) + p
      invariant forall i :: 0 <= i < |floors| ==> share[i] == floors[i] + if i in order[..p] then 1 else 0
    {
      Distinct(fs, |fs|, p);
      CountOne(share, order[p]);
      assert order[..p + 1] == order[..p] + [order[p]];
      share := share[order[p] := share[order[p]] + 1];
      left := left - 1;
      p := p + 1;
    }
  }

  /** Every share raised by the floor. */
  function Raised(share: seq<nat>, f: nat): (r: seq<nat>)
    ensures |r| == |share| && forall i :: 0 <= i < |share| ==> r[i] == share[i] + f
  {
    if share == [] then [] else [share[0] + f] + Raised(share[1..], f)
  }

  lemma {:induction false} RaisedCount(share: seq<nat>, f: nat)
    ensures Count(Raised(share, f)) == Count(share) + f * |share|
  {
    if share != [] {
      RaisedCount(share[1..], f);
      assert Raised(share, f)[1..] == Raised(share[1..], f);
      assert f * |share| == f + f * |share[1..]|;
    }
  }

  lemma {:induction false} CountOne(ns: seq<nat>, i: nat)
    requires i < |ns|
    ensures Count(ns[i := ns[i] + 1]) == Count(ns) + 1
  {
    var ms := ns[i := ns[i] + 1];
    if i > 0 {
      CountOne(ns[1..], i - 1);
      assert ms[1..] == ns[1..][i - 1 := ns[i] + 1];
    } else {
      assert ms[1..] == ns[1..];
    }
  }

  /** The quotas' fractions add up to what rounding down leaves, which is at most one each. */
  lemma Remainder(total: nat, weights: seq<real>, floor: nat)
    requires weights != [] && Nonnegative(weights)
    ensures var q := Exact(total, weights, floor);
            var left := Rest(total, |weights|, floor) - Count(Floors(q));
            0 <= left <= |weights| && left as real == Sum(Fractions(q))
  {
    hide Count, Floors, Fractions, Sum, Quotas, Quota;
    EffectiveIsPositive(weights);
    var w, rest := Effective(weights), Rest(total, |weights|, floor);
    var q := Exact(total, weights, floor);
    QuotasSum(rest, w, Sum(w));
    QuotaOfAll(rest, Sum(w));
    SumSplits(q);
    FractionsSum(q);
  }

  lemma {:induction false} FractionsSum(q: seq<real>)
    ensures 0.0 <= Sum(Fractions(q)) <= |q| as real
  {
    if q != [] {
      FractionsSum(q[1..]);
      assert Fractions(q)[1..] == Fractions(q[1..]);
    }
  }

  lemma Distinct(fs: seq<real>, n: nat, p: nat)
    requires p < n <= |fs|
    ensures Order(fs, n)[p] < n && Order(fs, n)[p] !in Order(fs, n)[..p]
  {
    var order := Order(fs, n);
    OrderIsOrdered(fs, n);
    assert order[p] in order;
    forall j | 0 <= j < p ensures order[j] != order[p] {
      assert Before(fs, order[j], order[p]);
    }
  }

  lemma FirstInOrder(fs: seq<real>, order: seq<nat>, p: nat, i: nat, j: nat)
    requires (forall k :: 0 <= k < |order| ==> order[k] < |fs|) && Ordered(fs, order) && p <= |order|
    requires i in order[..p] && j in order && j !in order[..p]
    ensures i < |fs| && j < |fs| && Before(fs, i, j)
  {
    hide Before;
    var a :| 0 <= a < p && order[a] == i;
    var b :| 0 <= b < |order| && order[b] == j;
    AmongFirst(order, p);
  }

  lemma AmongFirst(order: seq<nat>, p: nat)
    requires p <= |order|
    ensures forall b :: 0 <= b < p ==> order[b] in order[..p]
  {
    forall b | 0 <= b < p ensures order[b] in order[..p] {
      assert order[..p][b] == order[b];
    }
  }

  // ----- what follows -----

  function Extras(shares: seq<nat>, f: nat, q: seq<real>): (es: seq<real>)
    requires |shares| == |q|
    ensures |es| == |q| && forall i :: 0 <= i < |q| ==> es[i] == shares[i] as real - f as real - q[i].Floor as real
  {
    if q == [] then []
    else [shares[0] as real - f as real - q[0].Floor as real] + Extras(shares[1..], f, q[1..])
  }

  lemma {:induction false} ExtrasSum(shares: seq<nat>, f: nat, q: seq<real>)
    requires |shares| == |q| && Nonnegative(q)
    ensures Sum(Extras(shares, f, q)) == Count(shares) as real - (f * |q|) as real - Count(Floors(q)) as real
  {
    if q != [] {
      ExtrasSum(shares[1..], f, q[1..]);
      assert Extras(shares, f, q)[1..] == Extras(shares[1..], f, q[1..]);
      assert Floors(q)[1..] == Floors(q[1..]);
      assert f * |q| == f + f * |q[1..]|;
    }
  }

  lemma {:induction false} SumsDiffer(xs: seq<real>, ys: seq<real>, k: nat)
    requires |xs| == |ys| && k < |xs|
    requires forall i :: 0 <= i < |xs| ==> xs[i] <= ys[i]
    ensures xs[k] < ys[k] ==> Sum(xs) < Sum(ys)
  {
    if k == 0 {
      SumsCompare(xs[1..], ys[1..]);
    } else {
      SumsDiffer(xs[1..], ys[1..], k - 1);
    }
  }

  lemma {:induction false} SumsCompare(xs: seq<real>, ys: seq<real>)
    requires |xs| == |ys| && forall i :: 0 <= i < |xs| ==> xs[i] <= ys[i]
    ensures Sum(xs) <= Sum(ys)
  {
    if xs != [] {
      SumsCompare(xs[1..], ys[1..]);
    }
  }

  /** A quota that is a whole number is never rounded up. */
  lemma WholeQuotaIsExact(total: nat, weights: seq<real>, floor: nat, shares: seq<nat>, k: nat)
    requires weights != [] && Nonnegative(weights) && LargestRemainder(total, weights, floor, shares) && k < |weights|
    ensures var f, q := Floor(total, |weights|, floor), Exact(total, weights, floor);
            Fraction(q[k]) == 0.0 ==> shares[k] == f + q[k].Floor
  {
    hide Sum, Count, Floors, Nonnegative, Rest, Quotas, Effective;
    var f, q := Floor(total, |weights|, floor), Exact(total, weights, floor);
    var es, fs := Extras(shares, f, q), Fractions(q);
    if Fraction(q[k]) == 0.0 && shares[k] == f + q[k].Floor + 1 {
      Remainder(total, weights, floor);
      ExtrasSum(shares, f, q);
      forall i | 0 <= i < |fs| ensures fs[i] <= es[i] {
        assert es[i] == 0.0 ==> Before(fs, k, i);
      }
      SumsDiffer(fs, es, k);
    }
  }

  lemma {:induction false} SumAtLeast(xs: seq<real>, k: nat)
    requires Nonnegative(xs) && k < |xs|
    ensures Sum(xs) >= xs[k]
  {
    SumNonnegative(xs[1..]);
    if k > 0 {
      SumAtLeast(xs[1..], k - 1);
    }
  }

  /** A larger weight has a larger quota, if there is anything to divide. */
  lemma LargerQuota(total: nat, weights: seq<real>, floor: nat, i: nat, j: nat)
    requires weights != [] && Nonnegative(weights) && i < |weights| && j < |weights|
    ensures var q := Exact(total, weights, floor);
            && (weights[i] >= weights[j] ==> q[i] >= q[j])
            && (weights[i] > weights[j] ==> q[i] > q[j] || (q[i] == 0.0 && q[j] == 0.0))
  {
    hide Sum, Rest, Quota;
    EffectiveIsPositive(weights);
    SumAtLeast(weights, i);
    var w, rest := Effective(weights), Rest(total, |weights|, floor);
    if weights[i] >= weights[j] {
      QuotaMonotone(rest, w[j], w[i], Sum(w));
    }
    if rest == 0 {
      NothingToDivide(w[i], Sum(w));
      NothingToDivide(w[j], Sum(w));
    }
  }

  lemma NothingToDivide(x: real, z: real)
    requires z > 0.0
    ensures Quota(0, x, z) == 0.0
  {
    assert 0.0 * x == 0.0;
  }

  /** The shares sum to the total; every agent gets at least the floor, or an equal part if that is less;
      each share above the floor is the exact quota rounded down or up; a strictly larger weight never
      gets a smaller share; and equal weights differ by at most one, the lower index favoured. */
  lemma SharesAreFair(total: nat, weights: seq<real>, floor: nat, shares: seq<nat>, i: nat, j: nat)
    requires weights != [] && Nonnegative(weights) && LargestRemainder(total, weights, floor, shares)
    requires i < |weights| && j < |weights|
    ensures Count(shares) == total && shares[i] >= Floor(total, |weights|, floor)
    ensures var above, quota := (shares[i] - Floor(total, |weights|, floor)) as real, Exact(total, weights, floor)[i];
            quota - 1.0 < above < quota + 1.0
    ensures weights[i] > weights[j] ==> shares[i] >= shares[j]
    ensures weights[i] == weights[j] && i < j ==> shares[j] <= shares[i] <= shares[j] + 1
  {
    hide Sum, Count, Nonnegative, Exact, Floor, Effective;
    var f, q := Floor(total, |weights|, floor), Exact(total, weights, floor);
    WholeQuotaIsExact(total, weights, floor, shares, i);
    WholeQuotaIsExact(total, weights, floor, shares, j);
    LargerQuota(total, weights, floor, i, j);
    LargerQuota(total, weights, floor, j, i);
    NonnegativeAt(q, i);
    if q[i] >= q[j] {
      FloorMonotone(q[j], q[i]);
    }
    if q[i].Floor == q[j].Floor {
      SameFloor(q[j], q[i]);
      SameFloor(q[i], q[j]);
    }
  }

  lemma NonnegativeAt(xs: seq<real>, i: nat)
    requires Nonnegative(xs) && i < |xs|
    ensures xs[i] >= 0.0
  {
  }

  lemma FloorMonotone(x: real, y: real)
    requires x <= y
    ensures x.Floor <= y.Floor
  {
  }

  lemma SameFloor(x: real, y: real)
    requires x.Floor == y.Floor
    ensures Fraction(x) <= Fraction(y) <==> x <= y
  {
  }
}
