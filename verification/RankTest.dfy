/** The tie-corrected Mann-Whitney test that the limit proposer runs, up to its square root. */
module RankTest {
  /** A value, and whether it is from the sample `top`. */
  datatype Obs = Obs(v: real, top: bool)

  // ----- the reference definition: counting pairs -----

  /** Twice the number of `ys` below `v`, and once the number equal to it. */
  function Below(ys: seq<real>, v: real): nat {
    if ys == [] then 0 else (if ys[0] < v then 2 else if ys[0] == v then 1 else 0) + Below(ys[1..], v)
  }

  /** Twice the number of pairs in which `xs` beats `ys`, and once the number of ties. */
  function Wins(xs: seq<real>, ys: seq<real>): nat {
    if xs == [] then 0 else Below(ys, xs[0]) + Wins(xs[1..], ys)
  }

  function Equal(ys: seq<real>, v: real): (n: nat)
    ensures n <= |ys|
  {
    if ys == [] then 0 else (if ys[0] == v then 1 else 0) + Equal(ys[1..], v)
  }

  /** The sum over `xs` of the squared size of each value's tie in `ys`, less one. */
  function Ties(xs: seq<real>, ys: seq<real>): int {
    if xs == [] then 0 else TieOf(ys, xs[0]) + Ties(xs[1..], ys)
  }

  function TieOf(ys: seq<real>, v: real): int {
    Equal(ys, v) * Equal(ys, v) - 1
  }

  // ----- the statistic as it is computed -----

  function Values(all: seq<Obs>): (vs: seq<real>)
    ensures |vs| == |all| && forall i :: 0 <= i < |all| ==> vs[i] == all[i].v
  {
    if all == [] then [] else [all[0].v] + Values(all[1..])
  }

  function Tagged(xs: seq<real>, top: bool): (all: seq<Obs>)
    ensures |all| == |xs| && forall i :: 0 <= i < |xs| ==> all[i] == Obs(xs[i], top)
  {
    if xs == [] then [] else [Obs(xs[0], top)] + Tagged(xs[1..], top)
  }

  predicate Sorted(all: seq<Obs>) {
    forall i, j :: 0 <= i < j < |all| ==> all[i].v <= all[j].v
  }

  function Insert(x: Obs, all: seq<Obs>): (r: seq<Obs>)
    ensures |r| == |all| + 1
    ensures forall y :: y in r <==> y == x || y in all
  {
    if all == [] then [x]
    else if x.v <= all[0].v then [x] + all
    else
      assert all == [all[0]] + all[1..];
      [all[0]] + Insert(x, all[1..])
  }

  /** The stable sort by value. */
  function Sort(all: seq<Obs>): (r: seq<Obs>)
    ensures |r| == |all|
  {
    if all == [] then [] else Insert(all[0], Sort(all[1..]))
  }

  lemma {:induction false} InsertSorts(x: Obs, all: seq<Obs>)
    requires Sorted(all)
    ensures Sorted(Insert(x, all))
  {
    if all != [] && x.v > all[0].v {
      InsertSorts(x, all[1..]);
      var rest := Insert(x, all[1..]);
      forall j | 0 <= j < |rest| ensures all[0].v <= rest[j].v {
        assert rest[j] in rest;
      }
    }
  }

  lemma {:induction false} SortSorts(all: seq<Obs>)
    ensures Sorted(Sort(all))
  {
    if all != [] {
      SortSorts(all[1..]);
      InsertSorts(all[0], Sort(all[1..]));
    }
  }

  /** Twice the sum of the average ranks, in `all`, of those of `xs` that are from `top`. */
  function Ranks(xs: seq<Obs>, all: seq<real>): nat {
    if xs == [] then 0 else RankOf(xs[0], all) + Ranks(xs[1..], all)
  }

  /** Twice the average rank of an observation from `top`. */
  function RankOf(x: Obs, all: seq<real>): nat {
    if x.top then Below(all, x.v) + 1 else 0
  }

  // ----- what a sum over observations is does not depend on their order -----

  lemma {:induction false} InsertValues(x: Obs, all: seq<Obs>, v: real)
    ensures Below(Values(Insert(x, all)), v) == Below(Values([x] + all), v)
    ensures Equal(Values(Insert(x, all)), v) == Equal(Values([x] + all), v)
  {
    BelowFirst(x, all, v);
    if all != [] && x.v > all[0].v {
      InsertValues(x, all[1..], v);
      BelowFirst(x, all[1..], v);
      BelowFirst(all[0], all[1..], v);
      BelowFirst(all[0], Insert(x, all[1..]), v);
      assert [all[0]] + all[1..] == all;
    }
  }

  lemma BelowFirst(x: Obs, all: seq<Obs>, v: real)
    ensures Below(Values([x] + all), v) == (if x.v < v then 2 else if x.v == v then 1 else 0) + Below(Values(all), v)
    ensures Equal(Values([x] + all), v) == (if x.v == v then 1 else 0) + Equal(Values(all), v)
  {
    assert ([x] + all)[1..] == all;
    assert Values([x] + all) == [x.v] + Values(all);
    assert ([x.v] + Values(all))[1..] == Values(all);
  }

  lemma {:induction false} SortValues(all: seq<Obs>, v: real)
    ensures Below(Values(Sort(all)), v) == Below(Values(all), v)
    ensures Equal(Values(Sort(all)), v) == Equal(Values(all), v)
  {
    if all != [] {
      SortValues(all[1..], v);
      InsertValues(all[0], Sort(all[1..]), v);
      BelowFirst(all[0], Sort(all[1..]), v);
      BelowFirst(all[0], all[1..], v);
      assert [all[0]] + all[1..] == all;
    }
  }

  lemma {:induction false} InsertRanks(x: Obs, xs: seq<Obs>, all: seq<real>)
    ensures Ranks(Insert(x, xs), all) == RankOf(x, all) + Ranks(xs, all)
    ensures Ties(Values(Insert(x, xs)), all) == TieOf(all, x.v) + Ties(Values(xs), all)
  {
    hide TieOf, RankOf;
    TiesFirst(x, xs, all);
    if xs != [] && x.v > xs[0].v {
      InsertRanks(x, xs[1..], all);
      TiesFirst(xs[0], Insert(x, xs[1..]), all);
      TiesFirst(xs[0], xs[1..], all);
      assert [xs[0]] + xs[1..] == xs;
    }
  }

  lemma TiesFirst(x: Obs, xs: seq<Obs>, all: seq<real>)
    ensures Ranks([x] + xs, all) == RankOf(x, all) + Ranks(xs, all)
    ensures Ties(Values([x] + xs), all) == TieOf(all, x.v) + Ties(Values(xs), all)
  {
    hide TieOf, RankOf;
    assert ([x] + xs)[1..] == xs;
    assert Values([x] + xs) == [x.v] + Values(xs);
    assert ([x.v] + Values(xs))[1..] == Values(xs);
  }

  lemma {:induction false} SortRanks(xs: seq<Obs>, all: seq<real>)
    ensures Ranks(Sort(xs), all) == Ranks(xs, all)
    ensures Ties(Values(Sort(xs)), all) == Ties(Values(xs), all)
  {
    hide TieOf, RankOf;
    if xs != [] {
      SortRanks(xs[1..], all);
      InsertRanks(xs[0], Sort(xs[1..]), all);
      TiesFirst(xs[0], xs[1..], all);
      assert [xs[0]] + xs[1..] == xs;
    }
  }

  /** Ranks and ties are taken in what has the same counts. */
  lemma {:induction false} SameCounts(xs: seq<Obs>, all: seq<real>, all': seq<real>)
    requires forall v :: Below(all, v) == Below(all', v) && Equal(all, v) == Equal(all', v)
    ensures Ranks(xs, all) == Ranks(xs, all') && Ties(Values(xs), all) == Ties(Values(xs), all')
  {
    hide Below, Equal;
    if xs != [] {
      SameCounts(xs[1..], all, all');
      TiesFirst(xs[0], xs[1..], all);
      TiesFirst(xs[0], xs[1..], all');
      assert [xs[0]] + xs[1..] == xs;
    }
  }

  // ----- pairs -----

  lemma {:induction false} BelowConcat(xs: seq<real>, ys: seq<real>, v: real)
    ensures Below(xs + ys, v) == Below(xs, v) + Below(ys, v)
    ensures Equal(xs + ys, v) == Equal(xs, v) + Equal(ys, v)
  {
    if xs == [] {
      assert xs + ys == ys;
    } else {
      assert (xs + ys)[1..] == xs[1..] + ys;
      BelowConcat(xs[1..], ys, v);
    }
  }

  lemma {:induction false} WinsConcat(xs: seq<real>, ys: seq<real>, zs: seq<real>)
    ensures Wins(xs, ys + zs) == Wins(xs, ys) + Wins(xs, zs)
  {
    hide Below;
    if xs != [] {
      BelowConcat(ys, zs, xs[0]);
      WinsConcat(xs[1..], ys, zs);
    }
  }

  /** Twice the times `v` beats one of `xs`, and once the ties: the other side of `Below`. */
  lemma {:induction false} WinsOne(xs: seq<real>, v: real)
    ensures Wins(xs, [v]) + Below(xs, v) == 2 * |xs|
  {
    if xs != [] {
      WinsOne(xs[1..], v);
      assert [v][1..] == [];
      assert Below([v], xs[0]) == (if v < xs[0] then 2 else if v == xs[0] then 1 else 0) + Below([], xs[0]);
    }
  }

  lemma {:induction false} WinsNone(xs: seq<real>)
    ensures Wins(xs, []) == 0
  {
    if xs != [] {
      WinsNone(xs[1..]);
    }
  }

  /** Every pair is won by one side or tied. */
  lemma {:induction false} WinsBothWays(xs: seq<real>, ys: seq<real>)
    ensures Wins(xs, ys) + Wins(ys, xs) == 2 * |xs| * |ys|
  {
    if ys == [] {
      WinsNone(xs);
    } else {
      var y, rest := ys[0], ys[1..];
      assert ys == [y] + rest;
      WinsConcat(xs, [y], rest);
      WinsOne(xs, y);
      WinsBothWays(xs, rest);
      assert 2 * |xs| * |ys| == 2 * |xs| + 2 * |xs| * |rest|;
    }
  }

  lemma {:induction false} RanksOfTop(top: seq<real>, all: seq<real>)
    ensures Ranks(Tagged(top, true), all) == Wins(top, all) + |top|
  {
    hide Below;
    if top != [] {
      RanksOfTop(top[1..], all);
      assert Tagged(top, true)[1..] == Tagged(top[1..], true);
    }
  }

  lemma {:induction false} RanksOfRest(xs: seq<Obs>, rest: seq<real>, all: seq<real>)
    ensures Ranks(xs + Tagged(rest, false), all) == Ranks(xs, all)
  {
    hide Below;
    if xs != [] {
      assert (xs + Tagged(rest, false))[1..] == xs[1..] + Tagged(rest, false);
      RanksOfRest(xs[1..], rest, all);
    } else if rest != [] {
      assert xs + Tagged(rest, false) == Tagged(rest, false);
      assert Tagged(rest, false)[1..] == [] + Tagged(rest[1..], false);
      RanksOfRest([], rest[1..], all);
    } else {
      assert xs + Tagged(rest, false) == [];
    }
  }

  function Together(top: seq<real>, rest: seq<real>): seq<Obs> {
    Tagged(top, true) + Tagged(rest, false)
  }

  lemma ValuesTogether(top: seq<real>, rest: seq<real>)
    ensures Values(Together(top, rest)) == top + rest
  {
  }

  /** The rank-sum form of the statistic counts pairs: twice the rank sum, less the ranks `top` would have
      alone, is twice the pairs it wins and once the pairs it ties. */
  lemma RankSumCountsPairs(top: seq<real>, rest: seq<real>)
    ensures Ranks(Together(top, rest), top + rest) == |top| * (|top| + 1) + Wins(top, rest)
  {
    hide Ranks, Wins;
    RanksOfRest(Tagged(top, true), rest, top + rest);
    RanksOfTop(top, top + rest);
    WinsConcat(top, top, rest);
    WinsBothWays(top, top);
    HalfOfSquares(Wins(top, top), Wins(top, rest), |top|);
  }

  lemma HalfOfSquares(a: nat, b: nat, n: nat)
    requires a + a == 2 * n * n
    ensures a + b + n == n * (n + 1) + b
  {
  }

  // ----- ties -----

  lemma {:induction false} TiesBound(xs: seq<real>, ys: seq<real>)
    ensures Ties(xs, ys) <= |xs| * (|ys| * |ys| - 1)
    ensures Ties(xs, ys) == |xs| * (|ys| * |ys| - 1) <==> forall i :: 0 <= i < |xs| ==> Equal(ys, xs[i]) == |ys|
  {
    hide Equal;
    if xs != [] {
      var m, n := Equal(ys, xs[0]), |ys|;
      TiesBound(xs[1..], ys);
      Squares(m, n);
      assert |xs| * (n * n - 1) == (n * n - 1) + |xs[1..]| * (n * n - 1);
      assert forall i :: 0 <= i < |xs[1..]| ==> xs[1..][i] == xs[i + 1];
      if Ties(xs, ys) == |xs| * (n * n - 1) {
        forall i | 0 <= i < |xs| ensures Equal(ys, xs[i]) == |ys| {
          if i > 0 {
            assert xs[i] == xs[1..][i - 1];
          }
        }
      }
    }
  }

  lemma Squares(m: nat, n: nat)
    requires m <= n
    ensures m * m <= n * n && (m * m == n * n <==> m == n)
  {
    assert n * n - m * m == (n - m) * (n + m);
  }

  lemma {:induction false} EqualAll(ys: seq<real>, v: real)
    ensures Equal(ys, v) == |ys| <==> forall i :: 0 <= i < |ys| ==> ys[i] == v
  {
    if ys != [] {
      EqualAll(ys[1..], v);
      assert forall i :: 0 <= i < |ys[1..]| ==> ys[1..][i] == ys[i + 1];
      if Equal(ys, v) == |ys| {
        forall i | 0 <= i < |ys| ensures ys[i] == v {
          if i > 0 {
            assert ys[i] == ys[1..][i - 1];
          }
        }
      }
    }
  }

  predicate AllTied(ys: seq<real>) {
    forall i :: 0 <= i < |ys| ==> ys[i] == ys[0]
  }

  /** The tie sum is at most that of one tie of everything, and only then that. */
  lemma TieSumBound(ys: seq<real>)
    requires ys != []
    ensures Ties(ys, ys) <= |ys| * (|ys| * |ys| - 1)
    ensures Ties(ys, ys) == |ys| * (|ys| * |ys| - 1) <==> AllTied(ys)
  {
    TiesBound(ys, ys);
    forall i | 0 <= i < |ys| ensures Equal(ys, ys[i]) == |ys| <==> forall j :: 0 <= j < |ys| ==> ys[j] == ys[i] {
      EqualAll(ys, ys[i]);
    }
  }

  // ----- groups of equal values -----

  function CountTop(xs: seq<Obs>): (n: nat) {
    if xs == [] then 0 else (if xs[0].top then 1 else 0) + CountTop(xs[1..])
  }

  lemma {:induction false} GroupSum(xs: seq<Obs>, all: seq<real>, v: real)
    requires forall i :: 0 <= i < |xs| ==> xs[i].v == v
    ensures Ranks(xs, all) == CountTop(xs) * (Below(all, v) + 1)
    ensures Ties(Values(xs), all) == |xs| * TieOf(all, v)
  {
    hide Below, TieOf;
    if xs != [] {
      var b, e, rest := Below(all, v) + 1, TieOf(all, v), xs[1..];
      GroupSum(rest, all, v);
      TiesFirst(xs[0], rest, all);
      assert [xs[0]] + rest == xs;
      OneMore(CountTop(rest), b);
      OneMore(|rest|, e);
    }
  }

  lemma OneMore(n: nat, x: int)
    ensures (n + 1) * x == x + n * x && (0 + n) * x == n * x
  {
  }

  lemma {:induction false} RanksConcat(xs: seq<Obs>, ys: seq<Obs>, all: seq<real>)
    ensures Ranks(xs + ys, all) == Ranks(xs, all) + Ranks(ys, all)
  {
    hide RankOf;
    if xs == [] {
      assert xs + ys == ys;
    } else {
      assert (xs + ys)[1..] == xs[1..] + ys;
      RanksConcat(xs[1..], ys, all);
    }
  }

  lemma {:induction false} TiesConcat(xs: seq<real>, ys: seq<real>, all: seq<real>)
    ensures Ties(xs + ys, all) == Ties(xs, all) + Ties(ys, all)
  {
    hide TieOf;
    if xs == [] {
      assert xs + ys == ys;
    } else {
      assert (xs + ys)[1..] == xs[1..] + ys;
      TiesConcat(xs[1..], ys, all);
    }
  }

  lemma ValuesConcat(xs: seq<Obs>, ys: seq<Obs>)
    ensures Values(xs + ys) == Values(xs) + Values(ys)
  {
  }

  lemma {:induction false} BelowAll(ys: seq<real>, v: real)
    requires forall i :: 0 <= i < |ys| ==> ys[i] < v
    ensures Below(ys, v) == 2 * |ys| && Equal(ys, v) == 0
  {
    if ys != [] {
      BelowAll(ys[1..], v);
    }
  }

  lemma {:induction false} BelowSame(ys: seq<real>, v: real)
    requires forall i :: 0 <= i < |ys| ==> ys[i] == v
    ensures Below(ys, v) == |ys| && Equal(ys, v) == |ys|
  {
    if ys != [] {
      BelowSame(ys[1..], v);
    }
  }

  lemma {:induction false} BelowNone(ys: seq<real>, v: real)
    requires forall i :: 0 <= i < |ys| ==> ys[i] > v
    ensures Below(ys, v) == 0 && Equal(ys, v) == 0
  {
    if ys != [] {
      BelowNone(ys[1..], v);
    }
  }

  /** The values at positions `i` up to `j` are one group: all those equal to the `i`-th. */
  predicate IsGroup(all: seq<Obs>, i: nat, j: nat) {
    && i < j <= |all|
    && (forall p :: 0 <= p < i ==> all[p].v < all[i].v)
    && (forall p :: i <= p < j ==> all[p].v == all[i].v)
    && (forall p :: j <= p < |all| ==> all[p].v > all[i].v)
  }

  /** A group's average rank, and its size. */
  lemma GroupRank(all: seq<Obs>, i: nat, j: nat)
    requires IsGroup(all, i, j)
    ensures Below(Values(all), all[i].v) == i + j && Equal(Values(all), all[i].v) == j - i
  {
    hide Below, Equal;
    var vs, v := Values(all), all[i].v;
    var a, b, c := vs[..i], vs[i..j], vs[j..];
    assert vs == a + (b + c);
    BelowConcat(a, b + c, v);
    BelowConcat(b, c, v);
    BelowAll(a, v);
    BelowSame(b, v);
    BelowNone(c, v);
  }

  // ----- the test -----

  /** The test's outcome: no signal, or what its z score is taken from. */
  /** Twelve times the variance times `n (n - 1)`, as counts. */
  function Spread(n1: nat, n2: nat, ties: int): int {
    var n := n1 + n2;
    n1 * n2 * ((n + 1) * n * (n - 1) - ties)
  }

  function Variance(n1: nat, n2: nat, ties: int): real
    requires n1 > 0 && n2 > 0
  {
    var n := n1 + n2;
    assert n * (n - 1) >= 2;
    Spread(n1, n2, ties) as real / (12 * n * (n - 1)) as real
  }

  /** The variance is not negative, and is zero exactly when all values are tied. */
  lemma VarianceIsZeroWhenTied(top: seq<real>, rest: seq<real>)
    requires top != [] && rest != []
    ensures Variance(|top|, |rest|, Ties(top + rest, top + rest)) >= 0.0
    ensures Variance(|top|, |rest|, Ties(top + rest, top + rest)) == 0.0 <==> AllTied(top + rest)
  {
    hide Ties, AllTied;
    var n1, n2, n := |top|, |rest|, |top + rest|;
    var ties := Ties(top + rest, top + rest);
    TieSumBound(top + rest);
    CubeIs(n);
    PositiveProduct(n1, n2, n * (n * n - 1) - ties);
    Denominator(n);
    Quotient(Spread(n1, n2, ties), 12 * n * (n - 1));
  }

  lemma CubeIs(n: nat)
    ensures (n + 1) * n * (n - 1) == n * (n * n - 1)
  {
  }

  lemma PositiveProduct(a: nat, b: nat, c: nat)
    requires a > 0 && b > 0
    ensures a * b * c >= 0 && (a * b * c == 0 <==> c == 0)
  {
    assert a * b > 0;
  }

  lemma Denominator(n: nat)
    requires n >= 2
    ensures 12 * n * (n - 1) > 0
  {
  }

  lemma Quotient(x: nat, y: nat)
    requires y > 0
    ensures x as real / y as real >= 0.0 && (x as real / y as real == 0.0 <==> x == 0)
  {
    if x > 0 {
      assert x as real / y as real > 0.0;
    }
  }

  /** What the sort does not change: the rank sum of `top` and the tie sum, taken in the whole sample. */
  lemma SortedSums(top: seq<real>, rest: seq<real>)
    ensures var all := Sort(Together(top, rest));
            && Sorted(all) && |all| == |top| + |rest|
            && Ranks(all, Values(all)) == |top| * (|top| + 1) + Wins(top, rest)
            && Ties(Values(all), Values(all)) == Ties(top + rest, top + rest)
  {
    hide Ranks, Ties, Wins, Below, Equal, Sort;
    var both := Together(top, rest);
    var all := Sort(both);
    SortSorts(both);
    ValuesTogether(top, rest);
    forall v ensures Below(Values(all), v) == Below(top + rest, v) && Equal(Values(all), v) == Equal(top + rest, v) {
      SortValues(both, v);
    }
    SameCounts(all, Values(all), top + rest);
    SortRanks(both, top + rest);
    RankSumCountsPairs(top, rest);
  }

  /** What is used of a square root. */
  ghost predicate IsRoot(root: real -> real) {
    forall x :: x > 0.0 ==> root(x) > 0.0
  }

  function Excess(top: seq<real>, rest: seq<real>): real {
    Wins(top, rest) as real / 2.0 - (|top| * |rest|) as real / 2.0
  }

  /** The z of the test by the reference definition: how far the number of pairs that `top` wins, with half
      those it ties, is above half of all pairs, in standard deviations; zero if there is nothing to tell. */
  ghost function Z(root: real -> real, top: seq<real>, rest: seq<real>): real
    requires IsRoot(root)
  {
    if top == [] || rest == [] || AllTied(top + rest) then 0.0
    else
      VarianceIsZeroWhenTied(top, rest);
      Excess(top, rest) / root(Variance(|top|, |rest|, Ties(top + rest, top + rest)))
  }

  /** `rank_z`, for any square root that is given. */
  method RankZ(root: real -> real, top: seq<real>, rest: seq<real>) returns (z: real)
    requires IsRoot(root)
    ensures z == Z(root, top, rest)
  {
    hide Ranks, Ties, Wins, Sort, AllTied, Values, Variance, Sorted;
    if top == [] || rest == [] {
      return 0.0;
    }
    var n1, n2 := |top|, |rest|;
    var all := Sort(Together(top, rest));
    SortedSums(top, rest);
    var rTop, tieSum := RankSums(all);
    var u := rTop - (n1 * (n1 + 1)) as real / 2.0;
    var mean := (n1 * n2) as real / 2.0;
    var variance := Variance(n1, n2, tieSum);
    VarianceIsZeroWhenTied(top, rest);
    z := if variance <= 0.0 then 0.0 else (u - mean) / root(variance);
  }

  /** The sum of the average ranks of those from `top`, and the tie sum: one pass over the sorted sample. */
  method RankSums(all: seq<Obs>) returns (rTop: real, tieSum: int)
    requires Sorted(all)
    ensures rTop == Ranks(all, Values(all)) as real / 2.0 && tieSum == Ties(Values(all), Values(all))
  {
    hide Ranks, Ties, Values, CountTop;
    rTop, tieSum := 0.0, 0;
    var i := 0;
    NoGroup(Values(all));
    assert all[..0] == [];
    while i < |all|
      invariant i <= |all|
      invariant forall p, q :: 0 <= p < i <= q < |all| ==> all[p].v < all[q].v
      invariant rTop == Ranks(all[..i], Values(all)) as real / 2.0
      invariant tieSum == Ties(Values(all[..i]), Values(all))
    {
      var j := EndOfGroup(all, i);
      var avg := (i + 1 + j) as real / 2.0;
      rTop := rTop + avg * CountTop(all[i..j]) as real;
      tieSum := tieSum + Tie(j - i);
      GroupAdds(all, i, j);
      HalfProduct(i + 1 + j, CountTop(all[i..j]));
      i := j;
    }
    assert all[..|all|] == all;
  }

  /** What a tie of `t` adds to the tie sum. */
  function Tie(t: nat): int {
    t * t * t - t
  }

  method EndOfGroup(all: seq<Obs>, i: nat) returns (j: nat)
    requires i < |all| && Sorted(all) && forall p :: 0 <= p < i ==> all[p].v < all[i].v
    ensures IsGroup(all, i, j)
  {
    j := i;
    while j < |all| && all[j].v == all[i].v
      invariant i <= j <= |all|
      invariant forall p :: i <= p < j ==> all[p].v == all[i].v
    {
      j := j + 1;
    }
  }

  lemma NoGroup(all: seq<real>)
    ensures Ranks([], all) == 0 && Ties(Values([]), all) == 0
  {
  }

  lemma GroupAdds(all: seq<Obs>, i: nat, j: nat)
    requires IsGroup(all, i, j)
    ensures Ranks(all[..j], Values(all)) == Ranks(all[..i], Values(all)) + (i + 1 + j) * CountTop(all[i..j])
    ensures Ties(Values(all[..j]), Values(all)) == Ties(Values(all[..i]), Values(all)) + Tie(j - i)
  {
    hide Ranks, Ties, Below, Equal, Values, CountTop;
    assert all[..j] == all[..i] + all[i..j];
    RanksConcat(all[..i], all[i..j], Values(all));
    ValuesConcat(all[..i], all[i..j]);
    TiesConcat(Values(all[..i]), Values(all[i..j]), Values(all));
    GroupRank(all, i, j);
    GroupSum(all[i..j], Values(all), all[i].v);
    Cube(j - i);
  }

  lemma Cube(t: nat)
    ensures t * (t * t - 1) == Tie(t)
  {
  }

  lemma HalfProduct(a: nat, c: nat)
    ensures (a as real / 2.0) * c as real == (a * c) as real / 2.0
  {
  }

  /** Swapping the samples gives the pairs that are left. */
  lemma SwapGivesTheRest(top: seq<real>, rest: seq<real>)
    ensures Wins(rest, top) as real / 2.0 == (|top| * |rest|) as real - Wins(top, rest) as real / 2.0
  {
    hide Wins;
    WinsBothWays(top, rest);
  }

  lemma TiedEitherWay(top: seq<real>, rest: seq<real>)
    ensures AllTied(top + rest) ==> AllTied(rest + top)
  {
    if AllTied(top + rest) {
      var all, other := top + rest, rest + top;
      forall i, j | 0 <= i < |other| && 0 <= j < |other| ensures other[i] == other[j] {
        assert other[i] == all[if i < |rest| then |top| + i else i - |rest|];
        assert other[j] == all[if j < |rest| then |top| + j else j - |rest|];
      }
    }
  }

  lemma {:induction false} TiesInSame(xs: seq<real>, all: seq<real>, all': seq<real>)
    requires forall v :: Equal(all, v) == Equal(all', v)
    ensures Ties(xs, all) == Ties(xs, all')
  {
    hide Equal;
    if xs != [] {
      TiesInSame(xs[1..], all, all');
    }
  }

  lemma TiesEitherWay(top: seq<real>, rest: seq<real>)
    ensures Ties(top + rest, top + rest) == Ties(rest + top, rest + top)
  {
    hide Equal, Ties, Below;
    forall v ensures Equal(top + rest, v) == Equal(rest + top, v) {
      BelowConcat(top, rest, v);
      BelowConcat(rest, top, v);
    }
    TiesInSame(top + rest, top + rest, rest + top);
    TiesConcat(top, rest, rest + top);
    TiesConcat(rest, top, rest + top);
  }

  /** Swapping the samples negates z. */
  lemma SwapNegatesZ(root: real -> real, top: seq<real>, rest: seq<real>)
    requires IsRoot(root)
    ensures Z(root, rest, top) == -Z(root, top, rest)
  {
    hide Wins, Ties, AllTied, Variance;
    TiedEitherWay(top, rest);
    TiedEitherWay(rest, top);
    TiesEitherWay(top, rest);
    SwapGivesTheRest(top, rest);
    if top != [] && rest != [] && !AllTied(top + rest) {
      var n1, n2, ties := |top|, |rest|, Ties(top + rest, top + rest);
      VarianceIsZeroWhenTied(top, rest);
      VarianceEitherWay(n1, n2, ties);
      assert n1 * n2 == n2 * n1;
      Negated(Excess(top, rest), root(Variance(n1, n2, ties)));
    }
  }

  lemma VarianceEitherWay(n1: nat, n2: nat, ties: int)
    requires n1 > 0 && n2 > 0
    ensures Variance(n1, n2, ties) == Variance(n2, n1, ties)
  {
    assert n1 * n2 == n2 * n1 && n1 + n2 == n2 + n1;
  }

  lemma Negated(x: real, y: real)
    requires y > 0.0
    ensures (-x) / y == -(x / y)
  {
  }

  /** z is positive exactly when `top` wins more than half of the pairs, counting a tie as half a win. */
  lemma SignOfZ(root: real -> real, top: seq<real>, rest: seq<real>)
    requires IsRoot(root)
    ensures Z(root, top, rest) > 0.0 <==> Wins(top, rest) > |top| * |rest|
  {
    hide Wins, Ties, AllTied, Variance;
    if top == [] || rest == [] {
      WinsEmpty(top, rest);
    } else if AllTied(top + rest) {
      WinsTied(top, rest);
    } else {
      VarianceIsZeroWhenTied(top, rest);
      SignOfQuotient(Excess(top, rest), root(Variance(|top|, |rest|, Ties(top + rest, top + rest))));
    }
  }

  lemma SignOfQuotient(x: real, y: real)
    requires y > 0.0
    ensures x / y > 0.0 <==> x > 0.0
  {
  }

  lemma WinsEmpty(top: seq<real>, rest: seq<real>)
    requires top == [] || rest == []
    ensures Wins(top, rest) == 0
  {
    WinsNone(top);
  }

  /** Samples that are tied throughout win half the pairs. */
  lemma WinsTied(top: seq<real>, rest: seq<real>)
    requires AllTied(top + rest) && top != []
    ensures Wins(top, rest) == |top| * |rest|
  {
    var all, v := top + rest, top[0];
    assert all[0] == v;
    forall i | 0 <= i < |top| ensures top[i] == v {
      assert all[i] == top[i];
    }
    forall i | 0 <= i < |rest| ensures rest[i] == v {
      assert all[|top| + i] == rest[i];
    }
    WinsSame(top, rest, v);
  }

  lemma {:induction false} WinsSame(top: seq<real>, rest: seq<real>, v: real)
    requires forall i :: 0 <= i < |top| ==> top[i] == v
    requires forall i :: 0 <= i < |rest| ==> rest[i] == v
    ensures Wins(top, rest) == |top| * |rest|
  {
    hide Below;
    if top != [] {
      BelowSame(rest, v);
      WinsSame(top[1..], rest, v);
      assert |top| * |rest| == |rest| + |top[1..]| * |rest|;
    }
  }
}
