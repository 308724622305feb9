/** What training does to the learned scorer's decisions. */
module Training {
  import opened Text
  import opened Money
  import opened Order
  import opened Scoring
  import opened Learned

  // ---------- one step ----------

  lemma {:induction false} MovedAt(c: LearnedConfig, w: Vector, f: Vector, err: real, n: nat, k: nat)
    requires n <= 7 && k < 7
    ensures Moved(c, w, f, err, n)[k] == if k < n then w[k] - c.learningRate * (err * f[k] + c.l2 * w[k]) else w[k]
  {
    if n > 0 {
      MovedAt(c, w, f, err, n - 1, k);
    }
  }

  lemma {:induction false} Distribute(y: real, w: real, rate: real, err: real, f: real, l2: real)
    ensures y * (w - rate * (err * f + l2 * w)) == y * w - rate * (err * (y * f) + l2 * (y * w))
  {
    var g := err * f + l2 * w;
    assert y * (w - rate * g) == y * w - rate * (y * g);
    assert y * g == y * (err * f) + y * (l2 * w);
    assert y * (err * f) == err * (y * f);
    assert y * (l2 * w) == l2 * (y * w);
  }

  lemma {:induction false} Collect(rate: real, err: real, l2: real, a: real, b: real, c: real, d: real)
    ensures rate * (err * a + l2 * b) + rate * (err * c + l2 * d) == rate * (err * (a + c) + l2 * (b + d))
  {
    assert err * (a + c) == err * a + err * c;
    assert l2 * (b + d) == l2 * b + l2 * d;
  }

  lemma {:induction false} WeightedMoves(c: LearnedConfig, w: Vector, f: Vector, y: Vector, err: real, n: nat)
    requires n <= 7
    ensures Weighted(y, Moved(c, w, f, err, |w|), n)
         == Weighted(y, w, n) - c.learningRate * (err * Weighted(y, f, n) + c.l2 * Weighted(y, w, n))
  {
    if n > 0 {
      var k := n - 1;
      WeightedMoves(c, w, f, y, err, k);
      MovedAt(c, w, f, err, |w|, k);
      Distribute(y[k], w[k], c.learningRate, err, f[k], c.l2);
      Collect(c.learningRate, err, c.l2, Weighted(y, f, k), Weighted(y, w, k), y[k] * f[k], y[k] * w[k]);
    }
  }

  /** The error spread over what two packets share, plus the pull of the regularisation on the second. */
  function Pull(c: LearnedConfig, s: LearnedState, x: Sample, y: Vector): real {
    Miss(c, s, x) * (Weighted(y, x.features, |y|) + 1.0) + c.l2 * Weighted(y, s.weights, |y|)
  }

  /**
   What one step does to every packet, not just the one trained on: its logit moves against the error by the overlap of
   the two feature vectors plus one, and towards zero by the regularisation.
   */
  lemma {:induction false} StepMovesLogit(c: LearnedConfig, s: LearnedState, x: Sample, y: Vector)
    ensures Logit(Stepped(c, s, x), y) == Logit(s, y) - c.learningRate * Pull(c, s, x, y)
  {
    var err, overlap := Miss(c, s, x), Weighted(y, x.features, |y|);
    WeightedMoves(c, s.weights, x.features, y, err, |y|);
    assert err * (overlap + 1.0) == err * overlap + err;
    Collect(c.learningRate, err, c.l2, overlap, Weighted(y, s.weights, |y|), 1.0, 0.0);
  }

  /** Exactly when one step does not lower a packet's logit, and exactly when it does not raise it. */
  lemma {:induction false} StepLeansIff(c: LearnedConfig, s: LearnedState, x: Sample, y: Vector)
    requires c.learningRate > 0.0
    ensures Logit(Stepped(c, s, x), y) >= Logit(s, y) <==> Pull(c, s, x, y) <= 0.0
    ensures Logit(Stepped(c, s, x), y) <= Logit(s, y) <==> Pull(c, s, x, y) >= 0.0
  {
    StepMovesLogit(c, s, x, y);
    DropBySign(Logit(s, y), Logit(Stepped(c, s, x), y), c.learningRate, Pull(c, s, x, y));
  }

  lemma {:induction false} DropBySign(before: real, after: real, rate: real, pull: real)
    requires rate > 0.0 && after == before - rate * pull
    ensures (after >= before <==> pull <= 0.0) && (after <= before <==> pull >= 0.0)
  {
    if pull > 0.0 {
      assert rate * pull > 0.0;
    } else if pull < 0.0 {
      assert rate * -pull > 0.0;
      assert rate * -pull == -(rate * pull);
    }
  }

  /** The first weight alone. */
  function First(w: real): Vector { [w, 0.0, 0.0, 0.0, 0.0, 0.0, 0.0] }

  lemma {:induction false} WeightedFirst(v: real, w: real, n: nat)
    requires 1 <= n <= 7
    ensures Weighted(First(v), First(w), n) == v * w
  {
    if n > 1 {
      WeightedFirst(v, w, n - 1);
    } else {
      assert Weighted(First(v), First(w), 0) == 0.0;
    }
  }

  /**
   With the shipped rates, training on a denial can make the scorer more lenient towards that very packet: a model that
   already denies it for certain has no error left, and the regularisation still shrinks its weights.
   */
  lemma {:induction false} DenialCanLower(c: LearnedConfig, s: LearnedState)
    requires c.learningRate == 0.3 && c.l2 == 0.0001 && c.sigmoid(1000.0) == 1.0
    requires s.weights == First(1000.0) && s.bias == 0.0
    ensures var x := Sample(First(1.0), true); Logit(Stepped(c, s, x), x.features) < Logit(s, x.features)
  {
    var x := Sample(First(1.0), true);
    WeightedFirst(1.0, 1000.0, |x.features|);
    WeightedFirst(1.0, 1.0, |x.features|);
    assert Miss(c, s, x) == 0.0;
    StepLeansIff(c, s, x, x.features);
  }

  // ---------- shuffling ----------

  lemma {:induction false} SwapPermutes<T>(s: seq<T>, i: nat, j: nat)
    requires i < |s| && j < |s|
    ensures multiset(Swapped(s, i, j)) == multiset(s)
  {
  }

  /** A shuffle loses nothing and repeats nothing. */
  lemma {:induction false} ShufflePermutes<T>(random: Random, seed: int, s: seq<T>, i: int, k: nat)
    requires i < |s|
    ensures multiset(Shuffled(random, seed, s, i, k)) == multiset(s)
    decreases i
  {
    if i > 0 {
      var j := Drawn(random(seed, k), i);
      SwapPermutes(s, i, j);
      ShufflePermutes(random, seed, Swapped(s, i, j), i - 1, k + 1);
    }
  }

  /** Every epoch trains on every sample exactly as often as it was given, in whatever order the seed says. */
  lemma {:induction false} EpochTakesEverySample(c: LearnedConfig, xs: seq<Sample>, seed: Option<int>, epoch: nat)
    ensures multiset(OrderOf(c, xs, seed, epoch)) == multiset(xs)
    ensures seed.None? ==> OrderOf(c, xs, seed, epoch) == xs
  {
    if seed.Some? {
      ShufflePermutes(c.random, seed.value + epoch, xs, |xs| - 1, 0);
    }
  }

  /** The loss of one sample of an epoch, before the step it leads to. */
  function LossAt(c: LearnedConfig, s: LearnedState, xs: seq<Sample>, i: nat): real
    requires i < |xs|
  {
    c.loss(c.sigmoid(Logit(Epoch(c, s, xs[..i]), xs[i].features)), xs[i].denied)
  }

  ghost predicate LossesBetween(c: LearnedConfig, s: LearnedState, xs: seq<Sample>, low: real, high: real) {
    forall i | 0 <= i < |xs| :: low <= LossAt(c, s, xs, i) <= high
  }

  lemma {:induction false} EpochLossBetween(c: LearnedConfig, s: LearnedState, xs: seq<Sample>, low: real, high: real)
    requires LossesBetween(c, s, xs, low, high)
    ensures Copies(|xs|, low) <= EpochLoss(c, s, xs) <= Copies(|xs|, high)
  {
    if xs != [] {
      var n := |xs| - 1;
      forall i | 0 <= i < n ensures low <= LossAt(c, s, xs[..n], i) <= high {
        assert xs[..n][..i] == xs[..i] && LossAt(c, s, xs, i) == LossAt(c, s, xs[..n], i);
      }
      EpochLossBetween(c, s, xs[..n], low, high);
      assert low <= LossAt(c, s, xs, n) <= high;
    }
  }

  lemma {:induction false} MeanBetween(sum: real, n: nat, low: real, high: real)
    requires n > 0 && Copies(n, low) <= sum <= Copies(n, high)
    ensures low <= sum / n as real <= high
  {
    var mean, m := sum / n as real, n as real;
    CopiesIsProduct(n, low);
    CopiesIsProduct(n, high);
    assert mean * m == sum && (low - mean) * m == m * low - sum && (mean - high) * m == sum - m * high;
    if mean < low {
      PositiveProduct(low - mean, m);
    } else if mean > high {
      PositiveProduct(mean - high, m);
    }
  }

  /** What training returns lies between the least and the greatest loss of the last epoch's samples. */
  lemma {:induction false} MeanLossIsBetween(c: LearnedConfig, s: LearnedState, xs: seq<Sample>, seed: Option<int>,
                                             epochs: nat, low: real, high: real)
    requires xs != [] && epochs > 0
    requires LossesBetween(c, Epochs(c, s, xs, seed, epochs - 1), OrderOf(c, xs, seed, epochs - 1), low, high)
    ensures low <= MeanLoss(c, s, xs, seed, epochs) <= high
  {
    var before, order := Epochs(c, s, xs, seed, epochs - 1), OrderOf(c, xs, seed, epochs - 1);
    OrderKeepsLength(c, xs, seed, epochs - 1);
    EpochLossBetween(c, before, order, low, high);
    MeanBetween(EpochLoss(c, before, order), |xs|, low, high);
  }

  lemma {:induction false} OrderKeepsLength(c: LearnedConfig, xs: seq<Sample>, seed: Option<int>, epoch: nat)
    ensures |OrderOf(c, xs, seed, epoch)| == |xs|
  {
    var order := OrderOf(c, xs, seed, epoch);
    EpochTakesEverySample(c, xs, seed, epoch);
    assert |order| == |multiset(order)| == |multiset(xs)| == |xs|;
  }

  // ---------- whole trainings ----------

  ghost predicate NoneNegative(f: Vector) { forall k | 0 <= k < 7 :: f[k] >= 0.0 }

  ghost predicate RisesToOne(sigmoid: real -> real) {
    && (forall z :: 0.0 <= sigmoid(z) <= 1.0)
    && (forall z, z' | z <= z' :: sigmoid(z) <= sigmoid(z'))
  }

  /** Training on denials should not lower a number; training on admissions should not raise it. */
  predicate Leans(denied: bool, before: real, after: real) { if denied then before <= after else after <= before }

  /** Rates for which a step shrinks a weight at most to nothing, as any in use do. */
  predicate ModestRates(c: LearnedConfig) { c.learningRate >= 0.0 && 0.0 <= c.learningRate * c.l2 <= 1.0 }

  /** What `n` steps that find no error leave of a weight. */
  function Decayed(c: LearnedConfig, w: real, n: nat): real {
    if n == 0 then w else MovedWeight(c, Decayed(c, w, n - 1), 0.0, 0.0)
  }

  /** What they leave of a model's weights. */
  function Faded(c: LearnedConfig, w: Vector, n: nat): Vector {
    seq(|w|, k requires 0 <= k < |w| => Decayed(c, w[k], n))
  }

  lemma {:induction false} MovedApart(rate: real, l2: real, w: real, f: real, err: real)
    ensures w - rate * (err * f + l2 * w) == (1.0 - rate * l2) * w - rate * (err * f)
  {
    assert rate * (err * f + l2 * w) == rate * (err * f) + rate * (l2 * w);
    assert rate * (l2 * w) == rate * l2 * w;
    assert (1.0 - rate * l2) * w == w - rate * l2 * w;
  }

  /** An error of the sample's sign: a denial is never over-predicted, an admission never under-predicted. */
  predicate Misses(denied: bool, err: real) { if denied then err <= 0.0 else err >= 0.0 }

  /** A step moves a weight its sample's way from what a step without error makes of anything below it. */
  lemma {:induction false} WeightLeans(c: LearnedConfig, floor: real, w: real, f: real, err: real, denied: bool)
    requires ModestRates(c) && f >= 0.0 && Misses(denied, err) && Leans(denied, floor, w)
    ensures Leans(denied, MovedWeight(c, floor, 0.0, 0.0), MovedWeight(c, w, f, err))
  {
    var rate, keep := c.learningRate, 1.0 - c.learningRate * c.l2;
    MovedApart(rate, c.l2, w, f, err);
    MovedApart(rate, c.l2, floor, 0.0, 0.0);
    ScaledLeans(keep, floor, w, denied);
    ErrorLeans(rate, err, f, denied);
  }

  lemma {:induction false} ErrorLeans(rate: real, err: real, f: real, denied: bool)
    requires rate >= 0.0 && f >= 0.0 && Misses(denied, err)
    ensures Misses(denied, rate * (err * f))
  {
    if denied {
      ScaledLeans(f, err, 0.0, true);
      ScaledLeans(rate, f * err, 0.0, true);
    } else {
      NonNegativeProduct(err, f);
      NonNegativeProduct(rate, err * f);
    }
  }

  lemma {:induction false} ScaledLeans(y: real, a: real, b: real, denied: bool)
    requires y >= 0.0 && Leans(denied, a, b)
    ensures Leans(denied, y * a, y * b)
  {
    if denied {
      Scaled(y, a, b);
    } else {
      Scaled(y, b, a);
    }
  }

  lemma {:induction false} Scaled(y: real, a: real, b: real)
    requires y >= 0.0 && a <= b
    ensures y * a <= y * b
  {
    NonNegativeProduct(y, b - a);
    assert y * (b - a) == y * b - y * a;
  }

  /** Bias and weights lie on the samples' side of where they started, the weights after `n` steps of decay. */
  ghost predicate Leant(c: LearnedConfig, s: LearnedState, t: LearnedState, n: nat, denied: bool) {
    Leans(denied, s.bias, t.bias) && forall k | 0 <= k < 7 :: Leans(denied, Decayed(c, s.weights[k], n), t.weights[k])
  }

  /** Samples that all say the same: denials, or admissions. */
  ghost predicate OneSided(xs: seq<Sample>, denied: bool) {
    forall x | x in xs :: x.denied == denied && NoneNegative(x.features)
  }

  lemma {:induction false} NudgedWeight(c: LearnedConfig, floor: real, w: Vector, f: Vector, err: real, denied: bool,
                                        k: nat)
    requires k < 7 && ModestRates(c) && f[k] >= 0.0 && Misses(denied, err) && Leans(denied, floor, w[k])
    ensures Leans(denied, MovedWeight(c, floor, 0.0, 0.0), Moved(c, w, f, err, |w|)[k])
  {
    MovedAt(c, w, f, err, |w|, k);
    WeightLeans(c, floor, w[k], f[k], err, denied);
  }

  lemma {:induction false} NudgeLeans(c: LearnedConfig, s: LearnedState, t: LearnedState, n: nat, f: Vector, err: real,
                                      denied: bool)
    requires ModestRates(c) && NoneNegative(f) && Misses(denied, err) && Leant(c, s, t, n, denied)
    ensures Leant(c, s, Nudged(c, t, f, err), n + 1, denied)
  {
    BiasLeans(c, t.bias, err, denied);
    forall k | 0 <= k < 7 ensures Leans(denied, Decayed(c, s.weights[k], n + 1), Nudged(c, t, f, err).weights[k]) {
      NudgedWeight(c, Decayed(c, s.weights[k], n), t.weights, f, err, denied, k);
    }
  }

  lemma {:induction false} BiasLeans(c: LearnedConfig, bias: real, err: real, denied: bool)
    requires ModestRates(c) && Misses(denied, err)
    ensures Leans(denied, bias, bias - c.learningRate * err)
  {
    if denied {
      Scaled(c.learningRate, err, 0.0);
    } else {
      NonNegativeProduct(c.learningRate, err);
    }
  }

  lemma {:induction false} MissSign(c: LearnedConfig, t: LearnedState, x: Sample)
    requires RisesToOne(c.sigmoid)
    ensures Misses(x.denied, Miss(c, t, x))
  {
  }

  lemma {:induction false} StepLeans(c: LearnedConfig, s: LearnedState, t: LearnedState, n: nat, x: Sample)
    requires RisesToOne(c.sigmoid) && ModestRates(c) && NoneNegative(x.features) && Leant(c, s, t, n, x.denied)
    ensures Leant(c, s, Stepped(c, t, x), n + 1, x.denied)
  {
    MissSign(c, t, x);
    NudgeLeans(c, s, t, n, x.features, Miss(c, t, x), x.denied);
  }

  lemma {:induction false} EpochLeans(c: LearnedConfig, s: LearnedState, t: LearnedState, n: nat, xs: seq<Sample>,
                                      denied: bool)
    requires RisesToOne(c.sigmoid) && ModestRates(c) && OneSided(xs, denied) && Leant(c, s, t, n, denied)
    ensures Leant(c, s, Epoch(c, t, xs), n + |xs|, denied)
  {
    if xs != [] {
      var front, last := xs[..|xs| - 1], xs[|xs| - 1];
      assert last in xs;
      EpochLeans(c, s, t, n, front, denied);
      StepLeans(c, s, Epoch(c, t, front), n + |front|, last);
    }
  }

  lemma {:induction false} OrderIsOneSided(c: LearnedConfig, xs: seq<Sample>, seed: Option<int>, epoch: nat,
                                           denied: bool)
    requires OneSided(xs, denied)
    ensures var order := OrderOf(c, xs, seed, epoch); OneSided(order, denied) && |order| == |xs|
  {
    var order := OrderOf(c, xs, seed, epoch);
    EpochTakesEverySample(c, xs, seed, epoch);
    OrderKeepsLength(c, xs, seed, epoch);
    forall x | x in order ensures x in xs {
      SameMembers(order, xs, x);
    }
  }

  /** How many steps a training takes. */
  function StepsOf(xs: seq<Sample>, epochs: nat): nat { if epochs == 0 then 0 else StepsOf(xs, epochs - 1) + |xs| }

  lemma {:induction false} EpochsLean(c: LearnedConfig, s: LearnedState, xs: seq<Sample>, seed: Option<int>,
                                      epochs: nat, denied: bool)
    requires RisesToOne(c.sigmoid) && ModestRates(c) && OneSided(xs, denied)
    ensures Leant(c, s, Epochs(c, s, xs, seed, epochs), StepsOf(xs, epochs), denied)
  {
    if epochs > 0 {
      EpochsLean(c, s, xs, seed, epochs - 1, denied);
      OrderIsOneSided(c, xs, seed, epochs - 1, denied);
      EpochLeans(c, s, Epochs(c, s, xs, seed, epochs - 1), StepsOf(xs, epochs - 1), OrderOf(c, xs, seed, epochs - 1),
                 denied);
    }
  }

  lemma {:induction false} WeightedLeans(y: Vector, u: Vector, v: Vector, denied: bool, n: nat)
    requires n <= 7 && NoneNegative(y) && forall k | 0 <= k < 7 :: Leans(denied, u[k], v[k])
    ensures Leans(denied, Weighted(y, u, n), Weighted(y, v, n))
  {
    if n > 0 {
      var k := n - 1;
      WeightedLeans(y, u, v, denied, k);
      ScaledLeans(y[k], u[k], v[k], denied);
      assert Weighted(y, u, n) == Weighted(y, u, k) + y[k] * u[k];
      assert Weighted(y, v, n) == Weighted(y, v, k) + y[k] * v[k];
    }
  }

  /**
   Whole trainings lean their samples' way, whatever the samples, the shuffling, the number of epochs and the starting
   model. Trained on denials alone, a packet's logit never ends below the old bias plus what regularisation leaves of
   the old weights; trained on admissions alone it never ends above.
   */
  lemma {:induction false} TrainingLeans(c: LearnedConfig, s: LearnedState, xs: seq<Sample>, seed: Option<int>,
                                         epochs: nat, denied: bool, y: Vector)
    requires RisesToOne(c.sigmoid) && ModestRates(c) && OneSided(xs, denied) && NoneNegative(y)
    ensures Leans(denied, s.bias + Weighted(y, Faded(c, s.weights, StepsOf(xs, epochs)), |y|),
                  Logit(Epochs(c, s, xs, seed, epochs), y))
  {
    var t := Epochs(c, s, xs, seed, epochs);
    EpochsLean(c, s, xs, seed, epochs, denied);
    WeightedLeans(y, Faded(c, s.weights, StepsOf(xs, epochs)), t.weights, denied, |y|);
  }

  // ---------- what fading costs ----------

  /** The share of a weight that `n` steps of regularisation leave. */
  function Decay(c: LearnedConfig, n: nat): real {
    if n == 0 then 1.0 else (1.0 - c.learningRate * c.l2) * Decay(c, n - 1)
  }

  lemma {:induction false} DecayInUnit(c: LearnedConfig, n: nat)
    requires ModestRates(c)
    ensures 0.0 <= Decay(c, n) <= 1.0
  {
    if n > 0 {
      DecayInUnit(c, n - 1);
      ProductMonotone(0.0, 1.0 - c.learningRate * c.l2, 0.0, Decay(c, n - 1));
      ProductMonotone(1.0 - c.learningRate * c.l2, 1.0, Decay(c, n - 1), 1.0);
    }
  }

  lemma {:induction false} DecayedShare(c: LearnedConfig, w: real, n: nat)
    ensures Decayed(c, w, n) == Decay(c, n) * w
  {
    if n > 0 {
      var keep := 1.0 - c.learningRate * c.l2;
      DecayedShare(c, w, n - 1);
      MovedApart(c.learningRate, c.l2, Decayed(c, w, n - 1), 0.0, 0.0);
      Associate(keep, Decay(c, n - 1), w);
    }
  }

  lemma {:induction false} Associate(x: real, y: real, z: real)
    ensures x * (y * z) == x * y * z
  {
  }

  /** A packet keeps the same share of its weighted sum. */
  lemma {:induction false} FadedShare(c: LearnedConfig, y: Vector, w: Vector, steps: nat, n: nat)
    requires n <= 7
    ensures Weighted(y, Faded(c, w, steps), n) == Decay(c, steps) * Weighted(y, w, n)
  {
    if n > 0 {
      FadedShare(c, y, w, steps, n - 1);
      DecayedShare(c, w[n - 1], steps);
      DistributeShare(Decay(c, steps), Weighted(y, w, n - 1), y[n - 1], w[n - 1]);
    }
  }

  lemma {:induction false} DistributeShare(decay: real, a: real, y: real, w: real)
    ensures decay * (a + y * w) == decay * a + y * (decay * w)
  {
    assert decay * (a + y * w) == decay * a + decay * (y * w);
    assert decay * (y * w) == y * (decay * w);
  }

  /** A starting model with no weight on a packet that fading could cost; or no regularisation. */
  predicate NothingToLose(c: LearnedConfig, s: LearnedState, denied: bool, y: Vector) {
    c.learningRate * c.l2 == 0.0 || Leans(denied, Weighted(y, s.weights, |y|), 0.0)
  }

  lemma {:induction false} FadingCostsNothing(c: LearnedConfig, s: LearnedState, denied: bool, y: Vector, steps: nat)
    requires ModestRates(c) && NothingToLose(c, s, denied, y)
    ensures Leans(denied, Weighted(y, s.weights, |y|), Weighted(y, Faded(c, s.weights, steps), |y|))
  {
    FadedShare(c, y, s.weights, steps, |y|);
    DecayInUnit(c, steps);
    if c.learningRate * c.l2 == 0.0 {
      NoDecay(c, steps);
    }
    NothingLost(denied, Weighted(y, s.weights, |y|), Decay(c, steps), Weighted(y, Faded(c, s.weights, steps), |y|));
  }

  lemma {:induction false} NothingLost(denied: bool, overlap: real, decay: real, faded: real)
    requires 0.0 <= decay <= 1.0 && faded == decay * overlap && (Leans(denied, overlap, 0.0) || decay == 1.0)
    ensures Leans(denied, overlap, faded)
  {
    if decay != 1.0 {
      ScaledLeans(1.0 - decay, overlap, 0.0, denied);
      assert (1.0 - decay) * overlap == overlap - decay * overlap;
    }
  }

  lemma {:induction false} NoDecay(c: LearnedConfig, n: nat)
    requires c.learningRate * c.l2 == 0.0
    ensures Decay(c, n) == 1.0
  {
    if n > 0 {
      NoDecay(c, n - 1);
    }
  }

  /** So a packet's probability does not end on the wrong side of where it started when there was nothing to lose. */
  lemma {:induction false} TrainingNeverBackfires(c: LearnedConfig, s: LearnedState, xs: seq<Sample>, seed: Option<int>,
                                                  epochs: nat, denied: bool, y: Vector)
    requires RisesToOne(c.sigmoid) && ModestRates(c) && OneSided(xs, denied) && NoneNegative(y)
    requires NothingToLose(c, s, denied, y)
    ensures Leans(denied, c.sigmoid(Logit(s, y)), c.sigmoid(Logit(Epochs(c, s, xs, seed, epochs), y)))
  {
    TrainingLeans(c, s, xs, seed, epochs, denied, y);
    FadingCostsNothing(c, s, denied, y, StepsOf(xs, epochs));
  }

  /** From a cold start, where all weights are zero, there never is anything to lose. */
  lemma {:induction false} ColdStartNeverBackfires(c: LearnedConfig, s: LearnedState, xs: seq<Sample>,
                                                   seed: Option<int>, epochs: nat, denied: bool, y: Vector)
    requires RisesToOne(c.sigmoid) && ModestRates(c) && OneSided(xs, denied) && NoneNegative(y)
    requires forall k | 0 <= k < 7 :: s.weights[k] == 0.0
    ensures Leans(denied, c.sigmoid(Logit(s, y)), c.sigmoid(Logit(Epochs(c, s, xs, seed, epochs), y)))
  {
    NoWeight(y, s.weights, |y|);
    TrainingNeverBackfires(c, s, xs, seed, epochs, denied, y);
  }

  lemma {:induction false} NoWeight(y: Vector, w: Vector, n: nat)
    requires n <= 7 && forall k | 0 <= k < 7 :: w[k] == 0.0
    ensures Weighted(y, w, n) == 0.0
  {
    if n > 0 {
      NoWeight(y, w, n - 1);
      assert y[n - 1] * 0.0 == 0.0;
    }
  }
}
