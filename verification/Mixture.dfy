/** The fixed-share mixture of two experts: how the entropy learner weighs its n-gram against its chunk
    table, and why it never trails either by more than a constant and a small rate. Everything is over
    exact reals, and a product of probabilities stands for a sum of code lengths. */
module Mixture {
  /** The fixed-share rate. */
  const SHARE: real := 0.02

  /** One number for each expert. */
  datatype Pair = Pair(a: real, b: real) {
    function Of(i: bool): real {
      if i then b else a
    }
  }

  function Times(x: real, y: real): real {
    x * y
  }

  /** The mixture's probability, from the weights and the experts' own. */
  function Mix(w: Pair, p: Pair): real {
    Times(w.a, p.a) + Times(w.b, p.b)
  }

  /** The weights after a byte that the experts gave the probabilities `p`: the Bayes posterior, then
      mixed toward uniform. */
  function Posterior(w: Pair, p: Pair): Pair {
    var a, b := Times(w.a, p.a), Times(w.b, p.b);
    var z := a + b;
    if !(z > 0.0) then w
    else Pair(Part(a, z) + SHARE / 2.0, Part(b, z) + SHARE / 2.0)
  }

  /** An expert's part of the mixture's probability, less the share. */
  function Part(x: real, z: real): real
    requires z > 0.0
  {
    (1.0 - SHARE) * x / z
  }

  predicate Nonnegative(p: Pair) {
    p.a >= 0.0 && p.b >= 0.0
  }

  /** What the weights keep: they sum to one, and neither is below half the share. */
  predicate IsWeight(w: Pair) {
    w.a + w.b == 1.0 && w.a >= SHARE / 2.0 && w.b >= SHARE / 2.0
  }

  lemma PartOfSum(a: real, b: real, z: real)
    requires a >= 0.0 && b >= 0.0 && z == a + b && z > 0.0
    ensures Part(a, z) >= 0.0 && Part(b, z) >= 0.0 && Part(a, z) + Part(b, z) == 1.0 - SHARE
  {
    var c := 1.0 - SHARE;
    assert c * a / z + c * b / z == (c * a + c * b) / z;
    assert c * a + c * b == c * z;
  }

  lemma ProductNonnegative(x: real, y: real)
    requires x >= 0.0 && y >= 0.0
    ensures Times(x, y) >= 0.0
  {
  }

  /** The posterior of weights is weights: they sum to one, and neither is below half the share. */
  lemma PosteriorIsWeight(w: Pair, p: Pair)
    requires IsWeight(w) && Nonnegative(p)
    ensures IsWeight(Posterior(w, p))
  {
    hide Part, Times;
    ProductNonnegative(w.a, p.a);
    ProductNonnegative(w.b, p.b);
    var a, b := Times(w.a, p.a), Times(w.b, p.b);
    if a + b > 0.0 {
      PartOfSum(a, b, a + b);
    }
  }

  // ----- the regret bound -----

  predicate AllNonnegative(ps: seq<Pair>) {
    forall t :: 0 <= t < |ps| ==> Nonnegative(ps[t])
  }

  /** The product of the probabilities the mixture gives to a run of bytes, its weights moving. */
  function Score(w: Pair, ps: seq<Pair>): real
    decreases |ps|
  {
    if ps == [] then 1.0 else Times(Mix(w, ps[0]), Score(Posterior(w, ps[0]), ps[1..]))
  }

  /** What the weights leave of expert `i`'s standing when it is followed by expert `j`. */
  function Keep(i: bool, j: bool): real {
    if i == j then 1.0 - SHARE / 2.0 else SHARE / 2.0
  }

  /** The product of the probabilities of a forecaster that uses expert `path[t]` at byte `t`, less what
      each step from one byte to the next keeps. */
  function Follow(ps: seq<Pair>, path: seq<bool>): real
    requires |path| == |ps|
  {
    if ps == [] then 1.0
    else if |ps| == 1 then ps[0].Of(path[0])
    else Times(Times(Keep(path[0], path[1]), ps[0].Of(path[0])), Follow(ps[1..], path[1..]))
  }

  /** The mixture's probability times an expert's next weight is at least what the last expert's weight
      and probability leave it. */
  lemma StepKeeps(w: Pair, p: Pair, i: bool, j: bool)
    requires Nonnegative(w) && Nonnegative(p)
    ensures Times(Mix(w, p), Posterior(w, p).Of(j)) >= Times(Keep(i, j), Times(w.Of(i), p.Of(i)))
  {
    hide Part, Times;
    ProductNonnegative(w.a, p.a);
    ProductNonnegative(w.b, p.b);
    var a, b := Times(w.a, p.a), Times(w.b, p.b);
    var z := a + b;
    if z > 0.0 {
      var own, other := if j then b else a, if j then a else b;
      TimesPosterior(own, other, z);
      ProductNonnegative(1.0 - SHARE / 2.0, own);
      ProductNonnegative(SHARE / 2.0, other);
    } else {
      TimesZero(Posterior(w, p).Of(j));
      TimesZero(Keep(i, j));
    }
  }

  lemma TimesZero(x: real)
    ensures Times(0.0, x) == 0.0 && Times(x, 0.0) == 0.0
  {
  }

  lemma TimesPosterior(own: real, other: real, z: real)
    requires own >= 0.0 && other >= 0.0 && z == own + other && z > 0.0
    ensures Times(z, Part(own, z) + SHARE / 2.0) ==
              Times(1.0 - SHARE / 2.0, own) + Times(SHARE / 2.0, other)
  {
    var c := (1.0 - SHARE) * own;
    assert z * (c / z) == c;
    assert z * (c / z + SHARE / 2.0) == z * (c / z) + z * (SHARE / 2.0);
  }

  /** The mixture does at least as well as any forecaster that picks an expert for each byte, given the
      weight of the one it starts with and the rate of each step. */
  lemma {:induction false} TracksAnyPath(w: Pair, ps: seq<Pair>, path: seq<bool>)
    requires |path| == |ps| > 0 && IsWeight(w) && AllNonnegative(ps)
    ensures Score(w, ps) >= Times(w.Of(path[0]), Follow(ps, path))
    decreases |ps|
  {
    hide Times, Mix, Posterior, Keep;
    var p, i := ps[0], path[0];
    assert Nonnegative(p);
    if |ps| == 1 {
      OneByte(w, p, i);
    } else {
      var w', j := Posterior(w, p), path[1];
      PosteriorIsWeight(w, p);
      TracksAnyPath(w', ps[1..], path[1..]);
      FollowNonnegative(ps[1..], path[1..]);
      StepKeeps(w, p, i, j);
      var m, f := Mix(w, p), Follow(ps[1..], path[1..]);
      MixNonnegative(w, p);
      TimesMonotone(Times(w'.Of(j), f), Score(w', ps[1..]), m);
      TimesAssociates(m, w'.Of(j), f);
      TimesMonotone(Times(Keep(i, j), Times(w.Of(i), p.Of(i))), Times(m, w'.Of(j)), f);
      Reassociate(Keep(i, j), w.Of(i), p.Of(i), f);
    }
  }

  lemma MixNonnegative(w: Pair, p: Pair)
    requires Nonnegative(w) && Nonnegative(p)
    ensures Mix(w, p) >= 0.0
  {
    ProductNonnegative(w.a, p.a);
    ProductNonnegative(w.b, p.b);
  }

  lemma OneByte(w: Pair, p: Pair, i: bool)
    requires Nonnegative(w) && Nonnegative(p)
    ensures Times(Mix(w, p), 1.0) >= Times(w.Of(i), p.Of(i))
  {
    ProductNonnegative(w.a, p.a);
    ProductNonnegative(w.b, p.b);
  }

  lemma TimesMonotone(x: real, y: real, z: real)
    requires x <= y && z >= 0.0
    ensures Times(z, x) <= Times(z, y) && Times(x, z) <= Times(y, z)
  {
    ProductNonnegative(y - x, z);
  }

  lemma Reassociate(k: real, w: real, p: real, f: real)
    ensures Times(Times(k, Times(w, p)), f) == Times(w, Times(Times(k, p), f))
  {
  }

  lemma TimesAssociates(x: real, y: real, z: real)
    ensures Times(x, Times(y, z)) == Times(Times(x, y), z)
  {
  }

  lemma {:induction false} FollowNonnegative(ps: seq<Pair>, path: seq<bool>)
    requires |path| == |ps| && AllNonnegative(ps)
    ensures Follow(ps, path) >= 0.0
  {
    if |ps| == 1 {
      assert Nonnegative(ps[0]);
    } else if |ps| > 1 {
      assert Nonnegative(ps[0]);
      FollowNonnegative(ps[1..], path[1..]);
      ProductNonnegative(Keep(path[0], path[1]), ps[0].Of(path[0]));
      ProductNonnegative(Times(Keep(path[0], path[1]), ps[0].Of(path[0])), Follow(ps[1..], path[1..]));
    }
  }

  // ----- against one expert -----

  /** The product of one expert's own probabilities. */
  function Own(ps: seq<Pair>, i: bool): real {
    if ps == [] then 1.0 else Times(ps[0].Of(i), Own(ps[1..], i))
  }

  function Power(x: real, n: nat): real {
    if n == 0 then 1.0 else Times(x, Power(x, n - 1))
  }

  function Steadily(i: bool, n: nat): (path: seq<bool>)
    ensures |path| == n
  {
    if n == 0 then [] else [i] + Steadily(i, n - 1)
  }

  lemma {:induction false} FollowSteadily(ps: seq<Pair>, i: bool)
    requires |ps| > 0
    ensures Follow(ps, Steadily(i, |ps|)) == Times(Power(1.0 - SHARE / 2.0, |ps| - 1), Own(ps, i))
  {
    hide Times;
    var k, p := 1.0 - SHARE / 2.0, ps[0].Of(i);
    var path := Steadily(i, |ps|);
    if |ps| == 1 {
      TimesOne(p);
    } else {
      FollowSteadily(ps[1..], i);
      assert path[1..] == Steadily(i, |ps| - 1);
      assert path[1] == Steadily(i, |ps| - 1)[0] == i;
      Interchange(k, p, Power(k, |ps| - 2), Own(ps[1..], i));
    }
  }

  lemma TimesOne(x: real)
    ensures Times(1.0, x) == x && Times(x, 1.0) == x
  {
  }

  lemma Interchange(k: real, p: real, q: real, o: real)
    ensures Times(Times(k, p), Times(q, o)) == Times(Times(k, q), Times(p, o))
  {
  }

  lemma {:induction false} PowerGrows(x: real, y: real, n: nat)
    requires 0.0 <= x <= y
    ensures 0.0 <= Power(x, n) <= Power(y, n)
  {
    hide Times;
    if n > 0 {
      PowerGrows(x, y, n - 1);
      ProductNonnegative(x, Power(x, n - 1));
      TimesMonotone(Power(x, n - 1), Power(y, n - 1), x);
      TimesMonotone(x, y, Power(y, n - 1));
    }
  }

  lemma {:induction false} OwnNonnegative(ps: seq<Pair>, i: bool)
    requires AllNonnegative(ps)
    ensures Own(ps, i) >= 0.0
  {
    if ps != [] {
      assert Nonnegative(ps[0]);
      OwnNonnegative(ps[1..], i);
      ProductNonnegative(ps[0].Of(i), Own(ps[1..], i));
    }
  }

  /** The fixed-share bound against either expert: the mixture's probability of the bytes is at least the
      expert's own, less its first weight and half the share (and so less the share) for each byte after
      the first. */
  lemma NeverTrailsAnExpert(w: Pair, ps: seq<Pair>, i: bool)
    requires |ps| > 0 && IsWeight(w) && AllNonnegative(ps)
    ensures Score(w, ps) >= Times(w.Of(i), Times(Power(1.0 - SHARE / 2.0, |ps| - 1), Own(ps, i)))
    ensures Score(w, ps) >= Times(w.Of(i), Times(Power(1.0 - SHARE, |ps| - 1), Own(ps, i)))
  {
    hide Times, Score, Own, Power;
    var n := |ps| - 1;
    TracksAnyPath(w, ps, Steadily(i, |ps|));
    assert Steadily(i, |ps|)[0] == i;
    FollowSteadily(ps, i);
    OwnNonnegative(ps, i);
    PowerGrows(1.0 - SHARE, 1.0 - SHARE / 2.0, n);
    TimesMonotone(Power(1.0 - SHARE, n), Power(1.0 - SHARE / 2.0, n), Own(ps, i));
    TimesMonotone(Times(Power(1.0 - SHARE, n), Own(ps, i)), Times(Power(1.0 - SHARE / 2.0, n), Own(ps, i)), w.Of(i));
  }
}
