/** The entropy-chunked learner: an n-gram and a table of byte counts keyed by chunks, mixed by moving
    weights. The n-gram, its entropy and the hashes are taken as given functions. */
module Entropy {
  import opened Wrappers
  import opened Mixture
  import opened Bits
  import Q = Quantiles

  const V: nat := 256

  /** How many counts the n-gram's row is worth beside a bucket's own. */
  const BETA: real := 1.0

  type Byte = b: int | 0 <= b < 256
  type Row = seq<real>

  /** The hash of a chunk, the hash of a key, the entropy of a row in bits, and how long a chunk should be. */
  datatype Setup = Setup(hash: seq<Byte> -> nat, keyHash: (nat, seq<Byte>) -> nat, entropy: Row -> real,
                         targetLen: Q.Length)

  /** The hash of the last complete chunk, and where the current one starts. */
  datatype Segment = Segment(prev: nat, start: nat)

  /** A learner's model at rest: its n-gram, its counts and its threshold, `None` until trained. */
  datatype Coder = Coder(setup: Setup, ngram: seq<Byte> -> Row, counts: seq<nat>, totals: seq<nat>,
                         threshold: Option<real>)

  // ----- rows of numbers -----

  function Sum(row: Row): real {
    if row == [] then 0.0 else Sum(row[..|row| - 1]) + row[|row| - 1]
  }

  function Count(ns: seq<nat>): nat {
    if ns == [] then 0 else Count(ns[..|ns| - 1]) + ns[|ns| - 1]
  }

  predicate IsDistribution(row: Row) {
    |row| == V && (forall y :: 0 <= y < |row| ==> row[y] >= 0.0) && Sum(row) == 1.0
  }

  // ----- what the model knows at a position -----

  ghost predicate Serves(c: Coder) {
    && |c.totals| > 0 && |c.counts| == V * |c.totals|
    && (forall b :: 0 <= b < |c.totals| ==> Agrees(c, b))
    && (forall prefix: seq<Byte> :: IsDistribution(c.ngram(prefix)))
  }

  function Bucket(c: Coder, b: nat): (ns: seq<nat>)
    requires b < |c.totals| && |c.counts| == V * |c.totals|
    ensures |ns| == V
  {
    c.counts[V * b..V * b + V]
  }

  /** A bucket's total is the sum of its counts. */
  predicate Agrees(c: Coder, b: nat)
    requires b < |c.totals| && |c.counts| == V * |c.totals|
  {
    c.totals[b] == Count(Bucket(c, b))
  }

  function Cuts(c: Coder, prefix: seq<Byte>): bool {
    c.threshold.Some? && c.setup.entropy(c.ngram(prefix)) > c.threshold.value
  }

  /** `advance`: the segment at `t`. Only a cut starts a new one there, keyed by the hash of the one
      before, unless that one would hold nothing. */
  function Advanced(setup: Setup, s: Segment, bytes: seq<Byte>, t: nat, cut: bool): (r: Segment)
    requires s.start <= t <= |bytes|
    ensures r.start <= t
  {
    if cut && t > s.start then Segment(setup.hash(bytes[s.start..t]), t) else s
  }

  /** The segmentation once byte `t` has begun. */
  function SegmentAt(c: Coder, bytes: seq<Byte>, t: nat): (s: Segment)
    requires t <= |bytes|
    ensures s.start <= t
  {
    Advanced(c.setup, if t == 0 then Segment(0, 0) else SegmentAt(c, bytes, t - 1), bytes, t, Cuts(c, bytes[..t]))
  }

  function BucketAt(c: Coder, bytes: seq<Byte>, t: nat): (b: nat)
    requires t <= |bytes| && |c.totals| > 0
    ensures b < |c.totals|
  {
    var s := SegmentAt(c, bytes, t);
    c.setup.keyHash(s.prev, bytes[s.start..t]) % |c.totals|
  }

  /** `chunk_prob`: the chunk table's probability of a byte to which the n-gram gives `pa`. */
  function ChunkProb(count: nat, total: nat, pa: real): real {
    (count as real + BETA * pa) / (total as real + BETA)
  }

  /** The two experts' probabilities of `y`, given the n-gram's row and the bucket. */
  function Experts(c: Coder, row: Row, b: nat, y: Byte): Pair
    requires |row| == V && b < |c.totals| && |c.counts| == V * |c.totals|
  {
    Pair(row[y], ChunkProb(c.counts[V * b + y], c.totals[b], row[y]))
  }

  ghost function ExpertsAt(c: Coder, bytes: seq<Byte>, t: nat): Pair
    requires t < |bytes| && Serves(c)
  {
    Experts(c, c.ngram(bytes[..t]), BucketAt(c, bytes, t), bytes[t])
  }

  ghost function AllExperts(c: Coder, bytes: seq<Byte>): (ps: seq<Pair>)
    requires Serves(c)
    ensures |ps| == |bytes|
    ensures forall t :: 0 <= t < |bytes| ==> ps[t] == ExpertsAt(c, bytes, t)
  {
    seq(|bytes|, t requires 0 <= t < |bytes| => ExpertsAt(c, bytes, t))
  }

  /** The weights before byte `t` is seen. */
  ghost function WeightAt(c: Coder, w: Pair, bytes: seq<Byte>, t: nat): Pair
    requires t <= |bytes| && Serves(c)
  {
    if t == 0 then w else Posterior(WeightAt(c, w, bytes, t - 1), ExpertsAt(c, bytes, t - 1))
  }

  // ----- causality: nothing depends on the bytes to come -----

  lemma {:induction false} SegmentIsCausal(c: Coder, bytes: seq<Byte>, more: seq<Byte>, t: nat)
    requires t <= |bytes| && bytes <= more
    ensures SegmentAt(c, more, t) == SegmentAt(c, bytes, t)
  {
    hide Cuts;
    assert more[..t] == bytes[..t];
    if t > 0 {
      SegmentIsCausal(c, bytes, more, t - 1);
      var s := SegmentAt(c, bytes, t - 1);
      assert more[s.start..t] == bytes[s.start..t];
    } else {
      assert Advanced(c.setup, Segment(0, 0), bytes, 0, Cuts(c, bytes[..0])) == Segment(0, 0);
    }
  }

  lemma ExpertsAreCausal(c: Coder, bytes: seq<Byte>, more: seq<Byte>, t: nat)
    requires t < |bytes| && bytes <= more && Serves(c)
    ensures ExpertsAt(c, more, t) == ExpertsAt(c, bytes, t)
  {
    hide Serves, SegmentAt, Experts;
    ServesRow(c, []);
    BucketIsCausal(c, bytes, more, t);
    assert more[..t] == bytes[..t] && more[t] == bytes[t];
  }

  lemma BucketIsCausal(c: Coder, bytes: seq<Byte>, more: seq<Byte>, t: nat)
    requires t <= |bytes| && bytes <= more && |c.totals| > 0
    ensures BucketAt(c, more, t) == BucketAt(c, bytes, t)
  {
    hide SegmentAt;
    SegmentIsCausal(c, bytes, more, t);
    var s := SegmentAt(c, bytes, t);
    assert more[s.start..t] == bytes[s.start..t];
  }

  /** The weights before a byte are those of a coder that has read only the bytes before it. */
  lemma {:induction false} WeightIsCausal(c: Coder, w: Pair, bytes: seq<Byte>, more: seq<Byte>, t: nat)
    requires t <= |bytes| && bytes <= more && Serves(c)
    ensures WeightAt(c, w, more, t) == WeightAt(c, w, bytes, t)
  {
    hide Serves, ExpertsAt, Posterior;
    if t > 0 {
      WeightIsCausal(c, w, bytes, more, t - 1);
      ExpertsAreCausal(c, bytes, more, t - 1);
    }
  }

  // ----- both experts and the mixture are distributions -----

  lemma ExpertsNonnegative(c: Coder, row: Row, b: nat, y: Byte)
    requires Serves(c) && IsDistribution(row) && b < |c.totals|
    ensures Nonnegative(Experts(c, row, b, y))
  {
    QuotientNonnegative(c.counts[V * b + y] as real + BETA * row[y], c.totals[b] as real + BETA);
  }

  lemma QuotientNonnegative(x: real, y: real)
    requires x >= 0.0 && y > 0.0
    ensures x / y >= 0.0
  {
  }

  lemma AllExpertsNonnegative(c: Coder, bytes: seq<Byte>)
    requires Serves(c)
    ensures AllNonnegative(AllExperts(c, bytes))
  {
    forall t | 0 <= t < |bytes| ensures Nonnegative(AllExperts(c, bytes)[t]) {
      ExpertsNonnegative(c, c.ngram(bytes[..t]), BucketAt(c, bytes, t), bytes[t]);
    }
  }

  lemma {:induction false} WeightStaysWeight(c: Coder, w: Pair, bytes: seq<Byte>, t: nat)
    requires t <= |bytes| && Serves(c) && IsWeight(w)
    ensures IsWeight(WeightAt(c, w, bytes, t))
  {
    hide Serves, Posterior, Experts;
    if t > 0 {
      WeightStaysWeight(c, w, bytes, t - 1);
      ServesRow(c, bytes[..t - 1]);
      ExpertsNonnegative(c, c.ngram(bytes[..t - 1]), BucketAt(c, bytes, t - 1), bytes[t - 1]);
      PosteriorIsWeight(WeightAt(c, w, bytes, t - 1), ExpertsAt(c, bytes, t - 1));
    }
  }

  lemma ServesRow(c: Coder, prefix: seq<Byte>)
    requires Serves(c)
    ensures IsDistribution(c.ngram(prefix)) && |c.totals| > 0 && |c.counts| == V * |c.totals|
  {
  }

  /** The chunk table's row for a bucket with counts `ns`. */
  function ChunkRow(ns: seq<nat>, total: nat, row: Row): (r: Row)
    requires |ns| == |row|
    ensures |r| == |row| && forall y :: 0 <= y < |row| ==> r[y] == ChunkProb(ns[y], total, row[y])
  {
    seq(|row|, y requires 0 <= y < |row| => ChunkProb(ns[y], total, row[y]))
  }

  function Blend(w: Pair, ra: Row, rb: Row): (r: Row)
    requires |ra| == |rb|
    ensures |r| == |ra| && forall y :: 0 <= y < |ra| ==> r[y] == Mix(w, Pair(ra[y], rb[y]))
  {
    seq(|ra|, y requires 0 <= y < |ra| => Mix(w, Pair(ra[y], rb[y])))
  }

  /** The mixture's whole row. */
  function MixtureRow(c: Coder, w: Pair, row: Row, b: nat): (r: Row)
    requires |row| == V && b < |c.totals| && |c.counts| == V * |c.totals|
    ensures |r| == V && forall y: Byte :: r[y] == Mix(w, Experts(c, row, b, y))
  {
    var r := Blend(w, row, ChunkRow(Bucket(c, b), c.totals[b], row));
    assert forall y: Byte :: Bucket(c, b)[y] == c.counts[V * b + y];
    r
  }

  lemma {:induction false} ChunkSum(ns: seq<nat>, total: nat, row: Row)
    requires |ns| == |row|
    ensures Sum(ChunkRow(ns, total, row)) == (Count(ns) as real + BETA * Sum(row)) / (total as real + BETA)
  {
    hide ChunkProb;
    var n := |row|;
    if n > 0 {
      ChunkSum(ns[..n - 1], total, row[..n - 1]);
      assert ChunkRow(ns, total, row)[..n - 1] == ChunkRow(ns[..n - 1], total, row[..n - 1]);
      AddQuotients(Count(ns[..n - 1]), Sum(row[..n - 1]), ns[n - 1], row[n - 1], total);
    }
  }

  lemma AddQuotients(n: nat, p: real, m: nat, q: real, total: nat)
    ensures (n as real + BETA * p) / (total as real + BETA) + ChunkProb(m, total, q)
         == ((n + m) as real + BETA * (p + q)) / (total as real + BETA)
  {
    var x, y, d := n as real + BETA * p, m as real + BETA * q, total as real + BETA;
    assert x / d + y / d == (x + y) / d;
  }

  lemma {:induction false} BlendSum(w: Pair, ra: Row, rb: Row)
    requires |ra| == |rb|
    ensures Sum(Blend(w, ra, rb)) == Times(w.a, Sum(ra)) + Times(w.b, Sum(rb))
  {
    hide Times;
    var n := |ra|;
    if n > 0 {
      BlendSum(w, ra[..n - 1], rb[..n - 1]);
      assert Blend(w, ra, rb)[..n - 1] == Blend(w, ra[..n - 1], rb[..n - 1]);
      Distribute(w.a, Sum(ra[..n - 1]), ra[n - 1]);
      Distribute(w.b, Sum(rb[..n - 1]), rb[n - 1]);
    } else {
      TimesZero(w.a);
      TimesZero(w.b);
    }
  }

  lemma Distribute(w: real, x: real, y: real)
    ensures Times(w, x + y) == Times(w, x) + Times(w, y)
  {
  }

  lemma ChunkRowIsDistribution(c: Coder, row: Row, b: nat)
    requires Serves(c) && IsDistribution(row) && b < |c.totals|
    ensures IsDistribution(ChunkRow(Bucket(c, b), c.totals[b], row))
  {
    var ns, total := Bucket(c, b), c.totals[b];
    assert Agrees(c, b);
    ChunkSum(ns, total, row);
    Whole(total as real + BETA);
    forall y | 0 <= y < V ensures ChunkProb(ns[y], total, row[y]) >= 0.0 {
      QuotientNonnegative(ns[y] as real + BETA * row[y], total as real + BETA);
    }
  }

  lemma Whole(x: real)
    requires x > 0.0
    ensures x / x == 1.0
  {
  }

  /** Whatever was counted, the mixture is a proper distribution over the next byte. */
  lemma MixtureIsDistribution(c: Coder, w: Pair, row: Row, b: nat)
    requires Serves(c) && IsWeight(w) && IsDistribution(row) && b < |c.totals|
    ensures IsDistribution(MixtureRow(c, w, row, b))
  {
    hide Serves, Sum, Agrees, ChunkProb;
    ServesRow(c, []);
    var rb := ChunkRow(Bucket(c, b), c.totals[b], row);
    ChunkRowIsDistribution(c, row, b);
    BlendSum(w, row, rb);
    TimesOne(w.a);
    TimesOne(w.b);
    forall y | 0 <= y < V ensures Mix(w, Pair(row[y], rb[y])) >= 0.0 {
      MixNonnegative(w, Pair(row[y], rb[y]));
    }
  }

  // ----- the bound, for the learner itself -----

  /** On any text the learner's mixture is at least either expert's own probability of it, less the
      expert's first weight and the share for each byte after the first: so it follows the n-gram out of
      distribution, whatever the chunk table says there. */
  lemma LearnerNeverTrails(c: Coder, w: Pair, bytes: seq<Byte>, i: bool)
    requires Serves(c) && IsWeight(w)
    ensures |bytes| > 0 ==>
              Score(w, AllExperts(c, bytes))
              >= Times(w.Of(i), Times(Power(1.0 - SHARE, |bytes| - 1), Own(AllExperts(c, bytes), i)))
  {
    hide Serves, Score, Own, Power, Times;
    AllExpertsNonnegative(c, bytes);
    if |bytes| > 0 {
      NeverTrailsAnExpert(w, AllExperts(c, bytes), i);
    }
  }

  function Mean(total: real, n: nat): real
    requires n > 0
  {
    total / n as real
  }

  /** In bits a byte, as it is reported: the mixture is above an expert that gives the text any probability
      by no more than a constant over its length, and the rate of the share. */
  lemma LearnerNeverTrailsInBits(lg: Log, floor: real, c: Coder, w: Pair, bytes: seq<Byte>, i: bool)
    requires IsLog(lg) && Serves(c) && IsWeight(w)
    ensures |bytes| > 0 && Own(AllExperts(c, bytes), i) > 0.0 ==>
              var ps := AllExperts(c, bytes);
              Mean(MixtureBits(lg, floor, w, ps), |bytes|)
              <= Mean(OwnBits(lg, ps, i), |bytes|) + Mean(-lg(w.Of(i)), |bytes|) - lg(1.0 - SHARE)
  {
    hide Serves, MixtureBits, OwnBits, Own, IsLog;
    var ps := AllExperts(c, bytes);
    if |bytes| > 0 && Own(ps, i) > 0.0 {
      AllExpertsNonnegative(c, bytes);
      BitsNeverTrail(lg, floor, w, ps, i);
      ShareCosts(lg);
      MeanOfParts(MixtureBits(lg, floor, w, ps), OwnBits(lg, ps, i), -lg(w.Of(i)), -lg(1.0 - SHARE), |bytes|);
    }
  }

  lemma ShareCosts(lg: Log)
    requires IsLog(lg)
    ensures lg(1.0 - SHARE) <= 0.0
  {
    LogOfOne(lg);
  }

  lemma MeanOfParts(all: real, own: real, first: real, rate: real, n: nat)
    requires n > 0 && rate >= 0.0 && all <= own + first + (n - 1) as real * rate
    ensures Mean(all, n) <= Mean(own, n) + Mean(first, n) + rate
  {
    var x := n as real;
    assert (n - 1) as real * rate <= x * rate;
    assert all <= own + first + x * rate;
    assert all / x <= (own + first + x * rate) / x;
    assert (own + first + x * rate) / x == own / x + first / x + rate;
  }

  /** The product of the probabilities a predictor gives to the first `t` bytes as they are pushed. */
  ghost function Pushed(c: Coder, w: Pair, bytes: seq<Byte>, t: nat): real
    requires t <= |bytes| && Serves(c)
  {
    if t == 0 then 1.0
    else Times(Pushed(c, w, bytes, t - 1), Mix(WeightAt(c, w, bytes, t - 1), ExpertsAt(c, bytes, t - 1)))
  }

  lemma {:induction false} PushedSoFar(c: Coder, w: Pair, bytes: seq<Byte>, t: nat)
    requires t <= |bytes| && Serves(c)
    ensures Times(Pushed(c, w, bytes, t), Score(WeightAt(c, w, bytes, t), AllExperts(c, bytes)[t..]))
         == Score(w, AllExperts(c, bytes))
  {
    hide Serves, Score, Times, ExpertsAt, Posterior, Mix;
    var ps := AllExperts(c, bytes);
    if t == 0 {
      assert ps[0..] == ps;
      TimesOne(Score(w, ps));
    } else {
      var w1 := WeightAt(c, w, bytes, t - 1);
      PushedSoFar(c, w, bytes, t - 1);
      assert ps[t - 1] == ExpertsAt(c, bytes, t - 1);
      ScoreStep(w1, ps, t - 1);
      TimesAssociates(Pushed(c, w, bytes, t - 1), Mix(w1, ps[t - 1]), Score(Posterior(w1, ps[t - 1]), ps[t..]));
    }
  }

  /** Pushing bytes one at a time scores them as the whole text is scored. */
  lemma PushingScoresTheSame(c: Coder, w: Pair, bytes: seq<Byte>)
    requires Serves(c)
    ensures Pushed(c, w, bytes, |bytes|) == Score(w, AllExperts(c, bytes))
  {
    hide Serves, Times, ExpertsAt, Score;
    PushedSoFar(c, w, bytes, |bytes|);
    assert AllExperts(c, bytes)[|bytes|..] == [];
    ScoreEnd(WeightAt(c, w, bytes, |bytes|));
    TimesOne(Pushed(c, w, bytes, |bytes|));
  }

  // ----- training: the threshold -----

  /** The n-gram's entropy at each position of a text that has bytes before it. */
  function Entropies(setup: Setup, ngram: seq<Byte> -> Row, bytes: seq<Byte>): (hs: seq<real>) {
    if |bytes| <= 1 then []
    else
      var prefix := bytes[..|bytes| - 1];
      Entropies(setup, ngram, prefix) + [setup.entropy(ngram(prefix))]
  }

  function BatchEntropies(setup: Setup, ngram: seq<Byte> -> Row, batch: seq<seq<Byte>>): (hs: seq<real>) {
    if batch == [] then []
    else
      var n := |batch| - 1;
      BatchEntropies(setup, ngram, batch[..n]) + Entropies(setup, ngram, batch[n])
  }

  /** The threshold after training: the quantile of the batch's entropies, or the one before if there are none. */
  function Threshold(setup: Setup, ngram: seq<Byte> -> Row, batch: seq<seq<Byte>>, was: Option<real>): Option<real> {
    var hs := BatchEntropies(setup, ngram, batch);
    if hs == [] then was else Some(Q.Quantile(hs, setup.targetLen))
  }

  /** At most one position in the target length of a chunk is above the threshold, and at least one in it is
      not below: so the batch is cut into chunks of about that length. */
  lemma ThresholdCutsToLength(setup: Setup, ngram: seq<Byte> -> Row, batch: seq<seq<Byte>>, was: Option<real>)
    ensures var hs := BatchEntropies(setup, ngram, batch);
            hs != [] ==>
              var threshold := Threshold(setup, ngram, batch, was);
              && threshold.Some?
              && Q.Above(hs, threshold.value) as real <= Q.Part(|hs|, setup.targetLen)
              && (setup.targetLen >= 1.0 ==>
                    (|hs| - Q.Below(hs, threshold.value)) as real >= Q.Part(|hs|, setup.targetLen))
  {
    hide BatchEntropies, Q.Above, Q.Below, Q.Part, Q.Quantile;
    var hs := BatchEntropies(setup, ngram, batch);
    if hs != [] {
      Q.QuantileIs(hs, setup.targetLen);
    }
  }

  // ----- training: counts and weights -----

  /** One byte counted. */
  function Counted(c: Coder, b: nat, y: Byte): (r: Coder)
    requires b < |c.totals| && |c.counts| == V * |c.totals|
    ensures |r.totals| == |c.totals| && |r.counts| == |c.counts|
    ensures r.setup == c.setup && r.ngram == c.ngram && r.threshold == c.threshold
  {
    c.(counts := c.counts[V * b + y := c.counts[V * b + y] + 1], totals := c.totals[b := c.totals[b] + 1])
  }

  /** The model and the weights once `t` bytes of a text have been trained on. */
  ghost function TrainedTo(c: Coder, w: Pair, bytes: seq<Byte>, t: nat): (r: (Coder, Pair))
    requires t <= |bytes| && Serves(c)
    ensures Serves(r.0) && |r.0.totals| == |c.totals|
    ensures r.0.setup == c.setup && r.0.ngram == c.ngram && r.0.threshold == c.threshold
  {
    if t == 0 then (c, w)
    else
      var (c1, w1) := TrainedTo(c, w, bytes, t - 1);
      var b := BucketAt(c1, bytes, t - 1);
      CountedServes(c1, b, bytes[t - 1]);
      (Counted(c1, b, bytes[t - 1]), Posterior(w1, ExpertsAt(c1, bytes, t - 1)))
  }

  lemma {:induction false} CountOne(ns: seq<nat>, y: nat)
    requires y < |ns|
    ensures Count(ns[y := ns[y] + 1]) == Count(ns) + 1
  {
    var n := |ns|;
    var ms := ns[y := ns[y] + 1];
    if y < n - 1 {
      CountOne(ns[..n - 1], y);
      assert ms[..n - 1] == ns[..n - 1][y := ns[y] + 1];
    } else {
      assert ms[..n - 1] == ns[..n - 1];
    }
  }

  /** Counting a byte keeps every bucket's total the sum of its counts. */
  lemma CountedServes(c: Coder, b: nat, y: Byte)
    requires Serves(c) && b < |c.totals|
    ensures Serves(Counted(c, b, y))
  {
    hide Count, IsDistribution;
    var r := Counted(c, b, y);
    forall d | 0 <= d < |r.totals| ensures Agrees(r, d) {
      assert Agrees(c, d);
      if d == b {
        assert Bucket(r, b) == Bucket(c, b)[y := Bucket(c, b)[y] + 1];
        CountOne(Bucket(c, b), y);
      } else {
        assert Bucket(r, d) == Bucket(c, d);
      }
    }
  }

  /** Segmentation does not depend on the counts. */
  lemma {:induction false} SegmentIgnoresCounts(c: Coder, d: Coder, bytes: seq<Byte>, t: nat)
    requires t <= |bytes| && c.setup == d.setup && c.ngram == d.ngram && c.threshold == d.threshold
    ensures SegmentAt(c, bytes, t) == SegmentAt(d, bytes, t)
  {
    if t > 0 {
      SegmentIgnoresCounts(c, d, bytes, t - 1);
    }
  }

  /** Training counts each byte once, and leaves the weights weights. */
  lemma {:induction false} TrainingCountsBytes(c: Coder, w: Pair, bytes: seq<Byte>, t: nat)
    requires t <= |bytes| && Serves(c) && IsWeight(w)
    ensures Count(TrainedTo(c, w, bytes, t).0.totals) == Count(c.totals) + t
    ensures IsWeight(TrainedTo(c, w, bytes, t).1)
  {
    hide Serves, Count, Posterior, Experts;
    if t > 0 {
      TrainingCountsBytes(c, w, bytes, t - 1);
      var (c1, w1) := TrainedTo(c, w, bytes, t - 1);
      ServesRow(c1, bytes[..t - 1]);
      CountOne(c1.totals, BucketAt(c1, bytes, t - 1));
      ExpertsNonnegative(c1, c1.ngram(bytes[..t - 1]), BucketAt(c1, bytes, t - 1), bytes[t - 1]);
      PosteriorIsWeight(w1, ExpertsAt(c1, bytes, t - 1));
    }
  }

  /** The model and the weights once the first `n` texts of a batch have been trained on. */
  ghost function TrainedOn(c: Coder, w: Pair, batch: seq<seq<Byte>>, n: nat): (r: (Coder, Pair))
    requires n <= |batch| && Serves(c)
    ensures Serves(r.0) && |r.0.totals| == |c.totals|
    ensures r.0.setup == c.setup && r.0.ngram == c.ngram && r.0.threshold == c.threshold
  {
    if n == 0 then (c, w)
    else
      var (c1, w1) := TrainedOn(c, w, batch, n - 1);
      TrainedTo(c1, w1, batch[n - 1], |batch[n - 1]|)
  }

  function Bytes(batch: seq<seq<Byte>>): nat {
    if batch == [] then 0 else Bytes(batch[..|batch| - 1]) + |batch[|batch| - 1]|
  }

  /** A batch's every byte is counted once, and no training history leaves the weights anything but
      weights. */
  lemma {:induction false} BatchCountsBytes(c: Coder, w: Pair, batch: seq<seq<Byte>>, n: nat)
    requires n <= |batch| && Serves(c) && IsWeight(w)
    ensures Count(TrainedOn(c, w, batch, n).0.totals) == Count(c.totals) + Bytes(batch[..n])
    ensures IsWeight(TrainedOn(c, w, batch, n).1)
  {
    hide Serves, Count, TrainedTo;
    if n > 0 {
      BatchCountsBytes(c, w, batch, n - 1);
      var (c1, w1) := TrainedOn(c, w, batch, n - 1);
      TrainingCountsBytes(c1, w1, batch[n - 1], |batch[n - 1]|);
      assert batch[..n][..n - 1] == batch[..n - 1];
    }
  }

  // ----- the classes -----

  class Segmenter {
    var prev: nat
    var start: nat

    constructor ()
      ensures View() == Segment(0, 0)
    {
      prev, start := 0, 0;
    }

    function View(): Segment
      reads this
    {
      Segment(prev, start)
    }

    method Advance(setup: Setup, bytes: seq<Byte>, t: nat, cut: bool)
      requires start <= t <= |bytes|
      modifies this
      ensures View() == Advanced(setup, old(View()), bytes, t, cut)
    {
      if cut && t > start {
        prev := setup.hash(bytes[start..t]);
        start := t;
      }
    }
  }

  class EntropyLearner {
    const setup: Setup
    const counts: array<nat>
    const totals: array<nat>
    var ngram: seq<Byte> -> Row
    var threshold: Option<real>
    var weight: Pair
    var bytesSeen: nat

    constructor (setup: Setup, ngram: seq<Byte> -> Row, buckets: nat)
      requires buckets > 0 && forall prefix: seq<Byte> :: IsDistribution(ngram(prefix))
      ensures Valid() && fresh(counts) && fresh(totals)
      ensures Model() == Coder(setup, ngram, Zeros(V * buckets), Zeros(buckets), None)
      ensures weight == Pair(0.5, 0.5) && bytesSeen == 0
    {
      this.setup, this.ngram := setup, ngram;
      counts := new nat[V * buckets](_ => 0);
      totals := new nat[buckets](_ => 0);
      threshold, weight, bytesSeen := None, Pair(0.5, 0.5), 0;
      new;
      assert counts[..] == Zeros(V * buckets) && totals[..] == Zeros(buckets);
      ZerosServe(Model());
    }

    /** The model at rest. */
    ghost function Model(): Coder
      reads this, counts, totals
    {
      Coder(setup, ngram, counts[..], totals[..], threshold)
    }

    ghost predicate Valid()
      reads this, counts, totals
    {
      counts != totals && Serves(Model()) && IsWeight(weight)
    }

    /** `step`: the chunk table's row and bucket at position `t`, `seg` being left as it is there. */
    method Step(seg: Segmenter, bytes: seq<Byte>, t: nat) returns (row: Row, b: nat)
      requires Valid() && t <= |bytes|
      requires seg.View() == if t == 0 then Segment(0, 0) else SegmentAt(Model(), bytes, t - 1)
      modifies seg
      ensures seg.View() == SegmentAt(Model(), bytes, t)
      ensures row == ngram(bytes[..t]) && b == BucketAt(Model(), bytes, t) && b < totals.Length
      ensures IsDistribution(row)
    {
      hide Serves, IsDistribution;
      ServesRow(Model(), bytes[..t]);
      row := ngram(bytes[..t]);
      var cut := threshold.Some? && setup.entropy(row) > threshold.value;
      seg.Advance(setup, bytes, t, cut);
      b := setup.keyHash(seg.prev, bytes[seg.start..t]) % totals.Length;
    }

    /** The experts' probabilities of byte `y`. */
    method ExpertsOf(row: Row, b: nat, y: Byte) returns (p: Pair)
      requires Valid() && |row| == V && b < totals.Length
      ensures |counts[..]| == V * |totals[..]| && p == Experts(Model(), row, b, y)
    {
      hide ChunkProb;
      p := Pair(row[y], ChunkProb(counts[V * b + y], totals[b], row[y]));
    }

    /** `bits_per_byte`: the mean of the bits the mixture spends on the bytes; none without bytes. */
    method BitsPerByte(lg: Log, floor: real, bytes: seq<Byte>) returns (r: Option<real>)
      requires Valid()
      ensures r == if bytes == [] then None
                   else Some(Mean(MixtureBits(lg, floor, weight, AllExperts(Model(), bytes)), |bytes|))
    {
      hide Serves, MixtureBits, IsDistribution, Experts, Posterior, Mix, SegmentAt, AtLeast, Mean;
      if bytes == [] {
        return None;
      }
      var seg := new Segmenter();
      var w := weight;
      var nll := 0.0;
      ghost var ps := AllExperts(Model(), bytes);
      assert ps[0..] == ps;
      for t := 0 to |bytes|
        invariant seg.View() == if t == 0 then Segment(0, 0) else SegmentAt(Model(), bytes, t - 1)
        invariant w == WeightAt(Model(), weight, bytes, t)
        invariant nll + MixtureBits(lg, floor, w, ps[t..]) == MixtureBits(lg, floor, weight, ps)
      {
        var row, b := Step(seg, bytes, t);
        assert |row| == V by { ServesRow(Model(), bytes[..t]); }
        var p := ExpertsOf(row, b, bytes[t]);
        assert p == ps[t];
        BitsStep(lg, floor, w, ps, t);
        nll := nll - lg(AtLeast(Mix(w, p), floor));
        w := Posterior(w, p);
      }
      assert ps[|bytes|..] == [];
      BitsEnd(lg, floor, w);
      r := Some(Mean(nll, |bytes|));
    }

    method CountByte(b: nat, y: Byte)
      requires Valid() && b < totals.Length
      modifies counts, totals
      ensures Valid() && |old(counts[..])| == V * |old(totals[..])|
      ensures Model() == Counted(old(Model()), b, y)
    {
      hide IsDistribution, Agrees;
      ghost var c := Model();
      CountedServes(c, b, y);
      counts[V * b + y] := counts[V * b + y] + 1;
      totals[b] := totals[b] + 1;
      assert Model() == Counted(c, b, y);
    }

    method TrainOne(bytes: seq<Byte>)
      requires Valid()
      modifies this`weight, this`bytesSeen, counts, totals
      ensures Valid()
      ensures (Model(), weight) == TrainedTo(old(Model()), old(weight), bytes, |bytes|)
      ensures bytesSeen == old(bytesSeen) + |bytes|
    {
      hide Serves, IsDistribution, Experts, Posterior, Counted, Count, SegmentAt, IsWeight;
      ghost var c, w := Model(), weight;
      var seg := new Segmenter();
      for t := 0 to |bytes|
        invariant Valid() && fresh(seg)
        invariant seg.View() == if t == 0 then Segment(0, 0) else SegmentAt(c, bytes, t - 1)
        invariant Model().setup == c.setup && Model().ngram == c.ngram && Model().threshold == c.threshold
        invariant (Model(), weight) == TrainedTo(c, w, bytes, t)
        invariant bytesSeen == old(bytesSeen)
      {
        ghost var now := Model();
        if t > 0 {
          SegmentIgnoresCounts(c, now, bytes, t - 1);
        }
        SegmentIgnoresCounts(c, now, bytes, t);
        var row, b := Step(seg, bytes, t);
        RowLength(row);
        var p := ExpertsOf(row, b, bytes[t]);
        assert p == ExpertsAt(now, bytes, t);
        ExpertsNonnegative(now, row, b, bytes[t]);
        PosteriorIsWeight(weight, p);
        weight := Posterior(weight, p);
        CountByte(b, bytes[t]);
      }
      bytesSeen := bytesSeen + |bytes|;
    }

    /** `quantile_threshold`. */
    method QuantileThreshold(batch: seq<seq<Byte>>) returns (r: Option<real>)
      ensures r == Threshold(setup, ngram, batch, threshold)
    {
      var hs: seq<real> := [];
      for i := 0 to |batch|
        invariant hs == BatchEntropies(setup, ngram, batch[..i])
      {
        var bytes := batch[i];
        assert batch[..i + 1][..i] == batch[..i];
        ghost var before := hs;
        var t := 1;
        while t < |bytes|
          invariant 1 <= t && (t <= |bytes| || |bytes| == 0)
          invariant hs == before + Entropies(setup, ngram, bytes[..if t <= |bytes| then t else 0])
        {
          assert bytes[..t + 1][..t] == bytes[..t];
          hs := hs + [setup.entropy(ngram(bytes[..t]))];
          t := t + 1;
        }
        assert bytes[..|bytes|] == bytes;
      }
      assert batch[..|batch|] == batch;
      r := if hs == [] then threshold else Some(Q.Quantile(hs, setup.targetLen));
    }

    /** `train`: a posterior step and a count for every byte, under the threshold of the call before. Then
        the n-gram becomes what its own training makes of it, `ngram'`, and the threshold the quantile of
        its entropies over the batch. */
    method Train(batch: seq<seq<Byte>>, ngram': seq<Byte> -> Row)
      requires Valid() && forall prefix: seq<Byte> :: IsDistribution(ngram'(prefix))
      modifies this`weight, this`bytesSeen, this`ngram, this`threshold, counts, totals
      ensures Valid()
      ensures weight == TrainedOn(old(Model()), old(weight), batch, |batch|).1
      ensures Model() == TrainedOn(old(Model()), old(weight), batch, |batch|).0
                         .(ngram := ngram', threshold := Threshold(setup, ngram', batch, old(threshold)))
      ensures bytesSeen == old(bytesSeen) + Bytes(batch)
    {
      hide IsDistribution, TrainedTo, IsWeight, Agrees, Threshold;
      ghost var c, w := Model(), weight;
      for i := 0 to |batch|
        invariant Valid() && threshold == old(threshold)
        invariant (Model(), weight) == TrainedOn(c, w, batch, i)
        invariant bytesSeen == old(bytesSeen) + Bytes(batch[..i])
      {
        TrainOne(batch[i]);
        assert batch[..i + 1][..i] == batch[..i];
      }
      assert batch[..|batch|] == batch;
      ghost var before := Model();
      ngram := ngram';
      threshold := QuantileThreshold(batch);
      NewNgramServes(before, Model());
    }
  }

  /** The predictor: it keeps the segmentation and the weights as bytes come, so each costs one step. */
  class EntropyPredictor {
    const learner: EntropyLearner
    const seg: Segmenter
    var history: seq<Byte>
    var row: Row
    var bucket: nat
    var weight: Pair

    constructor (learner: EntropyLearner)
      requires learner.Valid()
      ensures Valid() && this.learner == learner && history == [] && fresh(seg)
    {
      this.learner := learner;
      history, weight := [], learner.weight;
      seg := new Segmenter();
      row, bucket := [], 0;
      new;
      row, bucket := learner.Step(seg, [], 0);
    }

    /** After `history`, what `bits_per_byte` has when it comes to the next byte: the same segmentation,
        row, bucket and weights. */
    ghost predicate Valid()
      reads this, seg, learner, learner.counts, learner.totals
    {
      var t := |history|;
      && learner.Valid()
      && seg.View() == SegmentAt(learner.Model(), history, t)
      && row == learner.ngram(history) && bucket == BucketAt(learner.Model(), history, t)
      && weight == WeightAt(learner.Model(), learner.weight, history, t)
    }

    /** The next byte's probabilities. They are a distribution. */
    method Distribution() returns (r: Row)
      requires Valid()
      ensures IsDistribution(r)
      ensures forall y: Byte :: r[y] == Mix(weight, Experts(learner.Model(), row, bucket, y))
    {
      hide Serves, IsDistribution, Experts, Mix, SegmentAt, WeightAt;
      ghost var c := learner.Model();
      assert history[..|history|] == history;
      ServesRow(c, history);
      RowLength(row);
      assert bucket < |c.totals|;
      r := [];
      while |r| < V
        invariant |r| <= V
        invariant forall y: Byte :: y < |r| ==> r[y] == Mix(weight, Experts(c, row, bucket, y))
      {
        var p := learner.ExpertsOf(row, bucket, |r|);
        r := r + [Mix(weight, p)];
      }
      assert r == MixtureRow(c, weight, row, bucket);
      WeightStaysWeight(c, learner.weight, history, |history|);
      MixtureIsDistribution(c, weight, row, bucket);
    }

    method Push(y: Byte)
      requires Valid()
      modifies this, seg
      ensures Valid() && history == old(history) + [y]
    {
      hide Serves, IsDistribution, Experts, Posterior, SegmentAt, BucketAt;
      ghost var c, t, before := learner.Model(), |history|, history;
      assert history[..t] == history;
      ServesRow(c, history);
      RowLength(row);
      BucketInRange(c, history, t);
      var p := learner.ExpertsOf(row, bucket, y);
      weight := Posterior(weight, p);
      history := history + [y];
      assert history[..t] == before && history[..t + 1] == history;
      BucketIsCausal(c, before, history, t);
      SegmentIsCausal(c, before, history, t);
      WeightIsCausal(c, learner.weight, before, history, t);
      assert ExpertsAt(c, history, t) == p;
      row, bucket := learner.Step(seg, history, |history|);
    }
  }

  lemma RowLength(row: Row)
    requires IsDistribution(row)
    ensures |row| == V
  {
  }

  lemma BucketInRange(c: Coder, bytes: seq<Byte>, t: nat)
    requires t <= |bytes| && |c.totals| > 0
    ensures BucketAt(c, bytes, t) < |c.totals|
  {
  }

  function Zeros(n: nat): (ns: seq<nat>)
    ensures |ns| == n && forall i :: 0 <= i < n ==> ns[i] == 0
  {
    seq(n, _ => 0)
  }

  lemma {:induction false} CountZeros(ns: seq<nat>)
    requires forall i :: 0 <= i < |ns| ==> ns[i] == 0
    ensures Count(ns) == 0
  {
    if ns != [] {
      CountZeros(ns[..|ns| - 1]);
    }
  }

  lemma ZerosServe(c: Coder)
    requires |c.totals| > 0 && c.counts == Zeros(V * |c.totals|) && c.totals == Zeros(|c.totals|)
    requires forall prefix: seq<Byte> :: IsDistribution(c.ngram(prefix))
    ensures Serves(c)
  {
    forall b | 0 <= b < |c.totals| ensures Agrees(c, b) {
      CountZeros(Bucket(c, b));
    }
  }

  lemma NewNgramServes(c: Coder, d: Coder)
    requires Serves(c) && c.counts == d.counts && c.totals == d.totals
    requires forall prefix: seq<Byte> :: IsDistribution(d.ngram(prefix))
    ensures Serves(d)
  {
    forall b | 0 <= b < |d.totals| ensures Agrees(d, b) {
      assert Agrees(c, b);
    }
  }

  lemma ScoreStep(w: Pair, ps: seq<Pair>, t: nat)
    requires t < |ps|
    ensures Score(w, ps[t..]) == Times(Mix(w, ps[t]), Score(Posterior(w, ps[t]), ps[t + 1..]))
  {
    assert ps[t..][0] == ps[t] && ps[t..][1..] == ps[t + 1..];
  }

  lemma BitsStep(lg: Log, floor: real, w: Pair, ps: seq<Pair>, t: nat)
    requires t < |ps|
    ensures MixtureBits(lg, floor, w, ps[t..])
         == MixtureBits(lg, floor, Posterior(w, ps[t]), ps[t + 1..]) - lg(AtLeast(Mix(w, ps[t]), floor))
  {
    assert ps[t..][0] == ps[t] && ps[t..][1..] == ps[t + 1..];
  }

  lemma BitsEnd(lg: Log, floor: real, w: Pair)
    ensures MixtureBits(lg, floor, w, []) == 0.0
  {
  }

  lemma ScoreEnd(w: Pair)
    ensures Score(w, []) == 1.0
  {
  }
}
