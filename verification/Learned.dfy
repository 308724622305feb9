/** The learned scorer: logistic regression over the same features, in shadow or enforce mode. */
module Learned {
  import opened Text
  import opened Money
  import opened Schema
  import opened Scoring

  datatype LearnedMode = Shadow | Enforce

  /** `sigmoid`, the logistic loss and the shuffler's random source are parameters: their shape is not used here. */
  datatype LearnedConfig = LearnedConfig(threshold: real, flagThreshold: real, rateWindowMs: int, rateSoftCap: real,
                                         probe: RoutingPacket -> Probe, sigmoid: real -> real,
                                         learningRate: real, l2: real, loss: (real, bool) -> real, random: Random)

  datatype LearnedState = LearnedState(memory: ScorerState, mode: LearnedMode, weights: Vector, bias: real)

  datatype LearnedScore = LearnedScore(probability: real, isAnomalous: bool, flagged: bool)

  function LearnedFeatures(c: LearnedConfig, s: LearnedState, p: RoutingPacket, t: int): Vector {
    var source := p.header.source;
    Features(c.probe(p), |Observed(c.rateWindowMs, s.memory, source, t)|, c.rateSoftCap, ReputationOf(s.memory, source))
  }

  function LearnedJudge(c: LearnedConfig, s: LearnedState, p: RoutingPacket, t: int): LearnedScore {
    var f := LearnedFeatures(c, s, p, t);
    var probability := Round4(c.sigmoid(s.bias + Weighted(f, s.weights, |f|)));
    LearnedScore(probability, probability >= c.threshold, probability < c.threshold && probability >= c.flagThreshold)
  }

  function AfterVerdict(c: LearnedConfig, s: LearnedState, p: RoutingPacket, t: int): LearnedState {
    var source := p.header.source;
    var v := LearnedJudge(c, s, p, t);
    s.(memory := ScorerState(
         s.memory.windows[source := Observed(c.rateWindowMs, s.memory, source, t)],
         s.memory.reputation[source := Clamp01(ReputationOf(s.memory, source) + Feedback(v.isAnomalous, v.flagged))]))
  }

  /** Whether the scorer adds a deny: only in enforce mode, and only for an anomaly. */
  function Denies(c: LearnedConfig, s: LearnedState, p: RoutingPacket, t: int): bool {
    s.mode.Enforce? && LearnedJudge(c, s, p, t).isAnomalous
  }

  // ---------- training ----------

  /** A labelled feature vector: what the gate did with the packet it came from. */
  datatype Sample = Sample(features: Vector, denied: bool)

  function Logit(s: LearnedState, f: Vector): real { s.bias + Weighted(f, s.weights, |f|) }

  function Miss(c: LearnedConfig, s: LearnedState, x: Sample): real {
    c.sigmoid(Logit(s, x.features)) - if x.denied then 1.0 else 0.0
  }

  /** One weight after a gradient step with error `err`: the error's share, and the pull of the regularisation. */
  function MovedWeight(c: LearnedConfig, w: real, f: real, err: real): real {
    w - c.learningRate * (err * f + c.l2 * w)
  }

  /** The first `n` weights after a gradient step with error `err`. */
  function Moved(c: LearnedConfig, w: Vector, f: Vector, err: real, n: nat): Vector
    requires n <= 7
  {
    if n == 0 then w
    else Moved(c, w, f, err, n - 1)[n - 1 := MovedWeight(c, w[n - 1], f[n - 1], err)]
  }

  /** The model after a gradient step with error `err`. */
  function Nudged(c: LearnedConfig, s: LearnedState, f: Vector, err: real): LearnedState {
    s.(weights := Moved(c, s.weights, f, err, |s.weights|), bias := s.bias - c.learningRate * err)
  }

  /** `trainOne`: one step of gradient descent. */
  function Stepped(c: LearnedConfig, s: LearnedState, x: Sample): LearnedState {
    Nudged(c, s, x.features, Miss(c, s, x))
  }

  function Epoch(c: LearnedConfig, s: LearnedState, xs: seq<Sample>): LearnedState {
    if xs == [] then s else Stepped(c, Epoch(c, s, xs[..|xs| - 1]), xs[|xs| - 1])
  }

  /** The losses of an epoch, each taken before the step it leads to, added up. */
  function EpochLoss(c: LearnedConfig, s: LearnedState, xs: seq<Sample>): real {
    if xs == [] then 0.0
    else
      var n := |xs| - 1;
      EpochLoss(c, s, xs[..n]) + c.loss(c.sigmoid(Logit(Epoch(c, s, xs[..n]), xs[n].features)), xs[n].denied)
  }

  /** The random source: the draws, each in [0, 1), that a seed gives. */
  type Unit = x: real | 0.0 <= x < 1.0
  type Random = (int, nat) -> Unit

  function Swapped<T>(s: seq<T>, i: nat, j: nat): (t: seq<T>)
    requires i < |s| && j < |s|
    ensures |t| == |s|
  {
    s[i := s[j]][j := s[i]]
  }

  /** The index drawn for position `i`: a random one from 0 to `i`. */
  function Drawn(r: Unit, i: nat): (j: nat)
    ensures j <= i
  {
    var n := (i + 1) as real;
    var x := r * n;
    ScaledIntoRange(r, n, x);
    x.Floor
  }

  /** Each index from 0 to `i` is drawn by an equal share of the numbers in [0, 1). */
  lemma {:induction false} DrawnIsFair(r: Unit, i: nat)
    ensures Drawn(r, i) as real <= r * (i + 1) as real < (Drawn(r, i) + 1) as real
  {
  }

  lemma ScaledIntoRange(r: Unit, n: real, x: real)
    requires n > 0.0 && x == r * n
    ensures 0.0 <= x < n
  {
    NonNegativeProduct(r, n);
    PositiveProduct(1.0 - r, n);
    assert (1.0 - r) * n == n - r * n;
  }

  /** Fisher-Yates from position `i` down to 1, when `k` draws have been used. */
  function Shuffled<T>(random: Random, seed: int, s: seq<T>, i: int, k: nat): (t: seq<T>)
    requires i < |s|
    ensures |t| == |s|
    decreases i
  {
    if i <= 0 then s else Shuffled(random, seed, Swapped(s, i, Drawn(random(seed, k), i)), i - 1, k + 1)
  }

  /** The order an epoch takes the samples in: as given, or shuffled with the seed advanced by the epoch. */
  function OrderOf(c: LearnedConfig, xs: seq<Sample>, seed: Option<int>, epoch: nat): seq<Sample> {
    if seed.None? then xs else Shuffled(c.random, seed.value + epoch, xs, |xs| - 1, 0)
  }

  function Epochs(c: LearnedConfig, s: LearnedState, xs: seq<Sample>, seed: Option<int>, epochs: nat): LearnedState {
    if epochs == 0 then s else Epoch(c, Epochs(c, s, xs, seed, epochs - 1), OrderOf(c, xs, seed, epochs - 1))
  }

  /** The mean loss of the last of a number of epochs; none, no loss. */
  function MeanLoss(c: LearnedConfig, s: LearnedState, xs: seq<Sample>, seed: Option<int>, epochs: nat): real
    requires xs != []
  {
    if epochs == 0 then 0.0
    else EpochLoss(c, Epochs(c, s, xs, seed, epochs - 1), OrderOf(c, xs, seed, epochs - 1)) / |xs| as real
  }

  /** `permute`: Fisher-Yates over a copy. */
  method Permute(random: Random, xs: seq<Sample>, seed: int) returns (shuffled: seq<Sample>)
    ensures shuffled == Shuffled(random, seed, xs, |xs| - 1, 0)
  {
    var out := new Sample[|xs|](i requires 0 <= i < |xs| => xs[i]);
    assert out[..] == xs;
    var i, k := out.Length - 1, 0;
    while i > 0
      invariant -1 <= i < out.Length && i <= out.Length - 1
      invariant Shuffled(random, seed, xs, |xs| - 1, 0) == Shuffled(random, seed, out[..], i, k)
    {
      var j := Drawn(random(seed, k), i);
      ghost var before := out[..];
      out[i], out[j] := out[j], out[i];
      assert out[..] == Swapped(before, i, j);
      i, k := i - 1, k + 1;
    }
    shuffled := out[..];
  }

  class LearnedBehavioralScorer {
    const config: LearnedConfig
    var mode: LearnedMode
    var weights: Vector
    var bias: real
    var windows: map<AgentRole, seq<int>>
    var reputation: map<AgentRole, real>

    ghost function State(): LearnedState
      reads this
    {
      LearnedState(ScorerState(windows, reputation), mode, weights, bias)
    }

    constructor (config: LearnedConfig, mode: LearnedMode, weights: Vector, bias: real)
      ensures State() == LearnedState(FRESH_SCORER, mode, weights, bias) && this.config == config
    {
      this.config, this.mode, this.weights, this.bias := config, mode, weights, bias;
      windows, reputation := map[], map[];
    }

    method SetMode(mode: LearnedMode)
      modifies this
      ensures State() == old(State()).(mode := mode)
    {
      this.mode := mode;
    }

    method Score(p: RoutingPacket, t: int) returns (v: LearnedScore)
      modifies this
      ensures v == LearnedJudge(config, old(State()), p, t)
      ensures State() == AfterVerdict(config, old(State()), p, t)
    {
      var source := p.header.source;
      var recent := Observed(config.rateWindowMs, ScorerState(windows, reputation), source, t);
      var risk := if source in reputation then reputation[source] else 0.0;
      windows := windows[source := recent];
      var features := Features(config.probe(p), |recent|, config.rateSoftCap, risk);
      var z := bias;
      var k := 0;
      while k < 7
        invariant 0 <= k <= 7 && z == bias + Weighted(features, weights, k)
      {
        z := z + weights[k] * features[k];
        k := k + 1;
      }
      var probability := Round4(config.sigmoid(z));
      var isAnomalous := probability >= config.threshold;
      var flagged := !isAnomalous && probability >= config.flagThreshold;
      reputation := reputation[source := Clamp01(risk + Feedback(isAnomalous, flagged))];
      v := LearnedScore(probability, isAnomalous, flagged);
    }

    method Verdict(p: RoutingPacket, t: int) returns (deny: bool, v: LearnedScore)
      modifies this
      ensures v == LearnedJudge(config, old(State()), p, t) && deny == Denies(config, old(State()), p, t)
      ensures State() == AfterVerdict(config, old(State()), p, t)
    {
      v := Score(p, t);
      deny := mode.Enforce? && v.isAnomalous;
    }

    /** One gradient step; returns the loss before it. */
    method TrainOne(x: Sample) returns (loss: real)
      modifies this
      ensures State() == Stepped(config, old(State()), x)
      ensures loss == config.loss(config.sigmoid(Logit(old(State()), x.features)), x.denied)
    {
      var p := config.sigmoid(bias + Weighted(x.features, weights, |x.features|));
      loss := config.loss(p, x.denied);
      var err := p - if x.denied then 1.0 else 0.0;
      assert err == Miss(config, State(), x);
      MoveWeights(x.features, err);
      bias := bias - config.learningRate * err;
    }

    method MoveWeights(features: Vector, err: real)
      modifies this`weights
      ensures weights == Moved(config, old(weights), features, err, |old(weights)|)
    {
      ghost var was := weights;
      var k := 0;
      while k < 7
        invariant 0 <= k <= 7 && weights == Moved(config, was, features, err, k)
        invariant forall j | k <= j < 7 :: weights[j] == was[j]
      {
        var grad := err * features[k] + config.l2 * weights[k];
        assert weights[k] - config.learningRate * grad == MovedWeight(config, was[k], features[k], err);
        weights := weights[k := weights[k] - config.learningRate * grad];
        k := k + 1;
      }
    }

    /** Train for a number of epochs; the model ends as `Epochs` says. Returns the last epoch's mean loss. */
    method Train(xs: seq<Sample>, epochs: nat, seed: Option<int>) returns (meanLoss: real)
      modifies this
      ensures State() == if xs == [] then old(State()) else Epochs(config, old(State()), xs, seed, epochs)
      ensures meanLoss == if xs == [] then 0.0 else Round4(MeanLoss(config, old(State()), xs, seed, epochs))
    {
      if xs == [] {
        return 0.0;
      }
      var last := 0.0;
      for e := 0 to epochs
        invariant State() == Epochs(config, old(State()), xs, seed, e)
        invariant last == MeanLoss(config, old(State()), xs, seed, e)
      {
        var order := EpochOrder(xs, seed, e);
        var sum := TrainEpoch(order);
        last := sum / |order| as real;
      }
      meanLoss := Round4(last);
    }

    method EpochOrder(xs: seq<Sample>, seed: Option<int>, epoch: nat) returns (order: seq<Sample>)
      ensures order == OrderOf(config, xs, seed, epoch) && |order| == |xs|
    {
      order := xs;
      if seed.Some? {
        order := Permute(config.random, xs, seed.value + epoch);
      }
    }

    method TrainEpoch(order: seq<Sample>) returns (sum: real)
      modifies this
      ensures State() == Epoch(config, old(State()), order) && sum == EpochLoss(config, old(State()), order)
    {
      sum := 0.0;
      for i := 0 to |order|
        invariant State() == Epoch(config, old(State()), order[..i])
        invariant sum == EpochLoss(config, old(State()), order[..i])
      {
        var loss := TrainOne(order[i]);
        sum := sum + loss;
        TakeNext(order, i);
        assert order[..i + 1][..i] == order[..i];
      }
      TakeAll(order, |order|);
    }
  }
}
