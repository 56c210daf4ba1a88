/** The mixture's score in bits, as it is reported, and the regret bound in bits. The logarithm is given;
    all that is used of it is that it turns products into sums and never falls. */
module Bits {
  import opened Mixture

  type Log = real -> real

  ghost predicate IsLog(lg: Log) {
    && (forall x, y :: x > 0.0 && y > 0.0 ==> lg(Times(x, y)) == lg(x) + lg(y))
    && forall x, y :: 0.0 < x <= y ==> lg(x) <= lg(y)
  }

  /** A probability, or the floor that stands for one too small to take the logarithm of. */
  function AtLeast(x: real, floor: real): real {
    if x < floor then floor else x
  }

  /** The bits the mixture spends on a run of bytes, its weights moving. */
  function MixtureBits(lg: Log, floor: real, w: Pair, ps: seq<Pair>): real
    decreases |ps|
  {
    if ps == [] then 0.0
    else MixtureBits(lg, floor, Posterior(w, ps[0]), ps[1..]) - lg(AtLeast(Mix(w, ps[0]), floor))
  }

  /** The bits one expert alone spends, with no floor. */
  function OwnBits(lg: Log, ps: seq<Pair>, i: bool): real {
    if ps == [] then 0.0 else OwnBits(lg, ps[1..], i) - lg(ps[0].Of(i))
  }

  lemma LogOfOne(lg: Log)
    requires IsLog(lg)
    ensures lg(1.0) == 0.0
  {
    TimesOne(1.0);
    assert lg(Times(1.0, 1.0)) == lg(1.0) + lg(1.0);
  }

  lemma {:induction false} LogOfPower(lg: Log, x: real, n: nat)
    requires IsLog(lg) && x > 0.0
    ensures Power(x, n) > 0.0 && lg(Power(x, n)) == n as real * lg(x)
  {
    hide Times;
    if n == 0 {
      LogOfOne(lg);
    } else {
      LogOfPower(lg, x, n - 1);
      BothPositive(x, Power(x, n - 1));
      assert lg(Times(x, Power(x, n - 1))) == lg(x) + lg(Power(x, n - 1));
      assert (n - 1) as real * lg(x) + lg(x) == n as real * lg(x);
    }
  }

  lemma BothPositive(x: real, y: real)
    ensures x > 0.0 && y > 0.0 ==> Times(x, y) > 0.0
    ensures x >= 0.0 && y >= 0.0 && Times(x, y) > 0.0 ==> x > 0.0 && y > 0.0
  {
  }

  lemma LogOfParts(lg: Log, x: real, y: real, z: real, all: real)
    requires IsLog(lg) && x > 0.0 && y > 0.0 && z > 0.0 && all >= Times(x, Times(y, z))
    ensures all > 0.0 && lg(x) + lg(y) + lg(z) <= lg(all)
  {
    hide Times;
    BothPositive(y, z);
    BothPositive(x, Times(y, z));
    assert lg(Times(x, Times(y, z))) == lg(x) + lg(Times(y, z));
    assert lg(Times(y, z)) == lg(y) + lg(z);
  }

  lemma WeightPositive(w: Pair, i: bool)
    requires IsWeight(w)
    ensures w.Of(i) > 0.0 && 1.0 - SHARE > 0.0
  {
  }

  lemma {:induction false} ScoreNonnegative(w: Pair, ps: seq<Pair>)
    requires IsWeight(w) && AllNonnegative(ps)
    ensures Score(w, ps) >= 0.0
    decreases |ps|
  {
    hide Times, Mix, Posterior;
    if ps != [] {
      var p := ps[0];
      assert Nonnegative(p);
      PosteriorIsWeight(w, p);
      ScoreNonnegative(Posterior(w, p), ps[1..]);
      MixNonnegative(w, p);
      ProductNonnegative(Mix(w, p), Score(Posterior(w, p), ps[1..]));
    }
  }

  /** No probability the mixture gives on the way is below the floor. */
  predicate Above(floor: real, w: Pair, ps: seq<Pair>)
    decreases |ps|
  {
    ps == [] || (Mix(w, ps[0]) >= floor && Above(floor, Posterior(w, ps[0]), ps[1..]))
  }

  /** The mixture's bits are the logarithm of its probability of the bytes, and only the floor can make
      them fewer. */
  lemma {:induction false} BitsAreLikelihood(lg: Log, floor: real, w: Pair, ps: seq<Pair>)
    requires IsLog(lg) && IsWeight(w) && AllNonnegative(ps) && Score(w, ps) > 0.0
    ensures MixtureBits(lg, floor, w, ps) <= -lg(Score(w, ps))
    ensures Above(floor, w, ps) ==> MixtureBits(lg, floor, w, ps) == -lg(Score(w, ps))
    decreases |ps|
  {
    hide Times, Mix, Posterior;
    if ps == [] {
      LogOfOne(lg);
    } else {
      var p := ps[0];
      var m, rest := Mix(w, p), Score(Posterior(w, p), ps[1..]);
      assert Nonnegative(p);
      PosteriorIsWeight(w, p);
      MixNonnegative(w, p);
      ScoreNonnegative(Posterior(w, p), ps[1..]);
      BothPositive(m, rest);
      BitsAreLikelihood(lg, floor, Posterior(w, p), ps[1..]);
      assert lg(Times(m, rest)) == lg(m) + lg(rest);
      assert lg(m) <= lg(AtLeast(m, floor));
    }
  }

  lemma {:induction false} OwnBitsAreLikelihood(lg: Log, ps: seq<Pair>, i: bool)
    requires IsLog(lg) && AllNonnegative(ps) && Own(ps, i) > 0.0
    ensures OwnBits(lg, ps, i) == -lg(Own(ps, i))
  {
    hide Times;
    if ps == [] {
      LogOfOne(lg);
    } else {
      var p, rest := ps[0].Of(i), Own(ps[1..], i);
      assert Nonnegative(ps[0]);
      OwnNonnegative(ps[1..], i);
      BothPositive(p, rest);
      OwnBitsAreLikelihood(lg, ps[1..], i);
      assert lg(Times(p, rest)) == lg(p) + lg(rest);
    }
  }

  /** The mixture spends no more bits than an expert that gives the bytes any probability at all, but for
      the bits of the expert's first weight and, after the first byte, those of what the share leaves. */
  lemma BitsNeverTrail(lg: Log, floor: real, w: Pair, ps: seq<Pair>, i: bool)
    requires IsLog(lg) && |ps| > 0 && IsWeight(w) && AllNonnegative(ps) && Own(ps, i) > 0.0
    ensures MixtureBits(lg, floor, w, ps)
         <= OwnBits(lg, ps, i) - lg(w.Of(i)) - (|ps| - 1) as real * lg(1.0 - SHARE)
  {
    hide *;
    var n := |ps| - 1;
    WeightPositive(w, i);
    NeverTrailsAnExpert(w, ps, i);
    LogOfPower(lg, 1.0 - SHARE, n);
    LogOfParts(lg, w.Of(i), Power(1.0 - SHARE, n), Own(ps, i), Score(w, ps));
    BitsAreLikelihood(lg, floor, w, ps);
    OwnBitsAreLikelihood(lg, ps, i);
  }
}
