/**
 * The HIM actor-critic: the shape of its two MLPs, how the actor's input is assembled from
 * the observation history and the estimator's output, and the diagonal Gaussian policy built
 * on the actor's mean. The networks themselves (actor, critic, estimator) are opaque
 * functions; the natural logarithm is a parameter.
 */
module ActorCritic {
  import opened Wrappers
  import opened Numerics

  /** A layer of an `nn.Sequential`: a linear map, or the configured activation. */
  datatype Layer = Linear(inFeatures: nat, outFeatures: nat) | Activation

  datatype ModuleError = NotImplemented

  /** The estimator's velocity estimate and latent code widths. */
  const VelocityDim: nat := 3
  const LatentDim: nat := 16

  /** `0.5 * log(2 * pi)`, the constant of the Gaussian log-density and entropy. */
  const HalfLogTwoPi: real := 0.9189385332046727

  /** The widths along an MLP: its input, each hidden width, its output. */
  function Widths(inputDim: nat, hidden: seq<nat>, outputDim: nat): (r: seq<nat>)
    ensures |r| == |hidden| + 2 && r[0] == inputDim && r[|r| - 1] == outputDim
    ensures forall i :: 0 <= i < |hidden| ==> r[i + 1] == hidden[i]
  {
    [inputDim] + hidden + [outputDim]
  }

  /**
   * The layer chain of an MLP: `Linear(w[0], w[1])`, activation, ..., `Linear(w[h], w[h + 1])`
   * where `w = Widths(...)`: one more linear layer than hidden widths, each one reading what the
   * previous one wrote, an activation after every linear layer but the last.
   */
  method BuildMlp(inputDim: nat, hidden: seq<nat>, outputDim: nat) returns (layers: seq<Layer>)
    requires |hidden| > 0
    ensures |layers| == 2 * |hidden| + 1
    ensures forall i :: 0 <= i <= |hidden| ==>
      layers[2 * i] == Linear(Widths(inputDim, hidden, outputDim)[i], Widths(inputDim, hidden, outputDim)[i + 1])
    ensures forall i :: 0 <= i < |hidden| ==> layers[2 * i + 1] == Activation
  {
    var widths := Widths(inputDim, hidden, outputDim);
    layers := [Linear(inputDim, hidden[0]), Activation];
    assert LinearAt(layers, widths, 0) && ActivationAt(layers, 0);
    for l := 0 to |hidden|
      invariant |layers| == if l < |hidden| then 2 * l + 2 else 2 * l + 1
      invariant forall i :: 0 <= i <= l ==> LinearAt(layers, widths, i)
      invariant forall i :: 0 <= i <= l && i < |hidden| ==> ActivationAt(layers, i)
    {
      var before := layers;
      if l == |hidden| - 1 {
        layers := before + [Linear(hidden[l], outputDim)];
      } else {
        layers := before + [Linear(hidden[l], hidden[l + 1]), Activation];
        assert ActivationAt(layers, l + 1);
      }
      assert LinearAt(layers, widths, l + 1);
      forall i | 0 <= i <= l
        ensures LinearAt(layers, widths, i) && ActivationAt(layers, i)
      {
        assert LinearAt(before, widths, i) && ActivationAt(before, i);
      }
    }
    forall i | 0 <= i <= |hidden|
      ensures layers[2 * i] == Linear(widths[i], widths[i + 1])
    {
      assert LinearAt(layers, widths, i);
    }
    forall i | 0 <= i < |hidden|
      ensures layers[2 * i + 1] == Activation
    {
      assert ActivationAt(layers, i);
    }
  }

  /** Layer `2 * i` of the chain is the linear map from width `i` to width `i + 1`. */
  predicate LinearAt(layers: seq<Layer>, widths: seq<nat>, i: nat)
  {
    2 * i < |layers| && i + 1 < |widths| && layers[2 * i] == Linear(widths[i], widths[i + 1])
  }

  /** Layer `2 * i + 1` of the chain is the activation. */
  predicate ActivationAt(layers: seq<Layer>, i: nat)
  {
    2 * i + 1 < |layers| && layers[2 * i + 1] == Activation
  }

  /** The linear layers of a chain, in order. */
  function LinearLayers(layers: seq<Layer>): (r: seq<Layer>)
    ensures forall i :: 0 <= i < |r| ==> r[i].Linear?
  {
    if |layers| == 0 then []
    else (if layers[0].Linear? then [layers[0]] else []) + LinearLayers(layers[1..])
  }

  /**
   * A chain as `BuildMlp` returns it has `|hidden| + 1` linear layers, the first reading
   * `inputDim`, the last writing `outputDim`, and each reading the previous one's output.
   */
  lemma {:induction false} MlpChain(layers: seq<Layer>, widths: seq<nat>)
    requires |widths| >= 2 && |layers| == 2 * |widths| - 3
    requires forall i :: 0 <= i < |widths| - 1 ==> layers[2 * i] == Linear(widths[i], widths[i + 1])
    requires forall i :: 0 <= i < |widths| - 2 ==> layers[2 * i + 1] == Activation
    ensures |LinearLayers(layers)| == |widths| - 1
    ensures LinearLayers(layers)[0].inFeatures == widths[0]
    ensures LinearLayers(layers)[|widths| - 2].outFeatures == widths[|widths| - 1]
    ensures forall i :: 0 < i < |widths| - 1 ==>
      LinearLayers(layers)[i].inFeatures == LinearLayers(layers)[i - 1].outFeatures
    decreases |widths|
  {
    assert layers[2 * 0] == Linear(widths[0], widths[1]);
    assert LinearLayers(layers) == [layers[0]] + LinearLayers(layers[1..]);
    if |widths| == 2 {
      assert LinearLayers(layers[1..]) == [];
    } else {
      var rest := layers[2..];
      forall i | 0 <= i < |widths| - 2
        ensures rest[2 * i] == Linear(widths[1..][i], widths[1..][i + 1])
      {
        assert rest[2 * i] == layers[2 * (i + 1)];
      }
      forall i | 0 <= i < |widths| - 3
        ensures rest[2 * i + 1] == Activation
      {
        assert rest[2 * i + 1] == layers[2 * (i + 1) + 1];
      }
      MlpChain(rest, widths[1..]);
      assert layers[1..][1..] == rest;
      assert layers[1] == Activation;
      assert LinearLayers(layers[1..]) == LinearLayers(rest);
    }
  }

  /** `int(num_actor_obs / num_one_step_obs)`: how many one-step observations the history holds. */
  function HistorySize(numActorObs: nat, numOneStepObs: nat): (h: nat)
    requires numOneStepObs > 0
    ensures h * numOneStepObs <= numActorObs < (h + 1) * numOneStepObs
  {
    numActorObs / numOneStepObs
  }

  /** The actor MLP's input width: one observation, the velocity estimate, the latent code. */
  function ActorInputDim(numOneStepObs: nat): nat
  {
    numOneStepObs + VelocityDim + LatentDim
  }

  /**
   * `cat(obs_history[:, :k], vel, latent)` for one environment. Python slicing stops at the end
   * of a shorter row.
   */
  function ActorInput(history: seq<real>, vel: seq<real>, latent: seq<real>, k: nat): (r: seq<real>)
    ensures |history| >= k ==> |r| == k + |vel| + |latent|
    ensures |history| >= k && |vel| == VelocityDim && |latent| == LatentDim ==> |r| == ActorInputDim(k)
    ensures |history| >= k ==> r[..k] == history[..k]
    ensures |history| >= k ==> r[k..k + |vel|] == vel && r[k + |vel|..] == latent
  {
    history[..if k <= |history| then k else |history|] + vel + latent
  }

  /** `row` repeated for each of `n` environments. */
  function Broadcast(row: seq<real>, n: nat): seq<seq<real>>
  {
    seq(n, _ => row)
  }

  /** A batch of diagonal Gaussians, one row per environment. */
  datatype Normal = Normal(mean: seq<seq<real>>, stddev: seq<seq<real>>)

  /** `Normal.sample()` with the standard-normal draw `noise` given: `mean + stddev * noise`. */
  function SampleWith(d: Normal, noise: seq<seq<real>>): (r: seq<seq<real>>)
    requires |d.stddev| == |d.mean| && |noise| == |d.mean|
    requires forall i :: 0 <= i < |d.mean| ==> |d.stddev[i]| == |d.mean[i]| && |noise[i]| == |d.mean[i]|
    ensures |r| == |d.mean|
    ensures forall i :: 0 <= i < |r| ==> |r[i]| == |d.mean[i]|
    ensures forall i, j :: 0 <= i < |r| && 0 <= j < |d.mean[i]| ==>
      (d.stddev[i][j] == 0.0 || noise[i][j] == 0.0 ==> r[i][j] == d.mean[i][j])
  {
    seq(|d.mean|, i requires 0 <= i < |d.mean| =>
      seq(|d.mean[i]|, j requires 0 <= j < |d.mean[i]| => d.mean[i][j] + d.stddev[i][j] * noise[i][j]))
  }

  /**
   * `-x^2 / (2 sigma^2)`, the exponent of the Gaussian density at distance `x` from the mean.
   * The policy's distribution refuses a scale that is not positive, so `sigma == 0` never
   * reaches torch's formula; 0 stands in for it here to keep the function total.
   */
  function Exponent(x: real, sigma: real): real
  {
    if sigma == 0.0 then 0.0 else -(x * x) / (2.0 * (sigma * sigma))
  }

  /** The Gaussian log-density of `a` under mean `mu` and standard deviation `sigma`, one dimension. */
  function LogDensity(a: real, mu: real, sigma: real, ln: real -> real): real
  {
    Exponent(a - mu, sigma) - ln(sigma) - HalfLogTwoPi
  }

  /**
   * `log_prob(actions).sum(dim=-1)` for one environment: the per-dimension densities summed
   * (over the common length; torch refuses rows of different widths).
   */
  function LogProbRow(a: seq<real>, mu: seq<real>, sigma: seq<real>, ln: real -> real): real
  {
    if |a| == 0 || |mu| == 0 || |sigma| == 0 then 0.0
    else LogDensity(a[0], mu[0], sigma[0], ln) + LogProbRow(a[1..], mu[1..], sigma[1..], ln)
  }

  /** `entropy().sum(dim=-1)` for one environment: `0.5 + 0.5 * log(2 pi) + log(sigma)` summed. */
  function EntropyRow(sigma: seq<real>, ln: real -> real): real
  {
    if |sigma| == 0 then 0.0 else 0.5 + HalfLogTwoPi + ln(sigma[0]) + EntropyRow(sigma[1..], ln)
  }

  lemma NegativeOverPositive(n: real, d: real)
    requires n >= 0.0 && d > 0.0
    ensures -n / d <= 0.0
  {
  }

  lemma ProductPositive(a: real, b: real)
    requires (a > 0.0 && b > 0.0) || (a < 0.0 && b < 0.0)
    ensures a * b > 0.0
  {
  }

  lemma SquareNonNegative(x: real, n: real)
    requires n == x * x
    ensures n >= 0.0
  {
  }

  /** `2 * sigma^2` is positive for any non-zero `sigma`. */
  lemma TwiceSquarePositive(s: real, d: real)
    requires s != 0.0 && d == 2.0 * (s * s)
    ensures d > 0.0
  {
    calc {
      d;
      == 2.0 * (s * s);
      > { ProductPositive(s, s); } 0.0;
    }
  }

  /** The exponent is never positive, and zero at the mean. */
  lemma ExponentBounds(x: real, sigma: real)
    ensures Exponent(x, sigma) <= 0.0
    ensures x == 0.0 ==> Exponent(x, sigma) == 0.0
  {
    if sigma != 0.0 {
      TwiceSquarePositive(sigma, 2.0 * (sigma * sigma));
      SquareNonNegative(x, x * x);
      NegativeOverPositive(x * x, 2.0 * (sigma * sigma));
    }
  }

  /** In one dimension the density peaks at the mean. */
  lemma LogDensityMaximalAtMean(a: real, mu: real, sigma: real, ln: real -> real)
    ensures LogDensity(a, mu, sigma, ln) <= LogDensity(mu, mu, sigma, ln)
  {
    ExponentBounds(a - mu, sigma);
    ExponentBounds(mu - mu, sigma);
  }

  /** The log-density of a row peaks at the mean: no action is more likely than the mean itself. */
  lemma {:induction false} LogProbMaximalAtMean(a: seq<real>, mu: seq<real>, sigma: seq<real>, ln: real -> real)
    requires |a| == |mu| == |sigma|
    ensures LogProbRow(a, mu, sigma, ln) <= LogProbRow(mu, mu, sigma, ln)
  {
    if |a| > 0 {
      LogDensityMaximalAtMean(a[0], mu[0], sigma[0], ln);
      LogProbMaximalAtMean(a[1..], mu[1..], sigma[1..], ln);
    }
  }

  lemma LogProbsMaximalAtMean(actions: seq<seq<real>>, d: Normal, ln: real -> real)
    requires |actions| == |d.mean| == |d.stddev|
    ensures forall i :: 0 <= i < |actions| && |actions[i]| == |d.mean[i]| == |d.stddev[i]| ==>
      LogProbRow(actions[i], d.mean[i], d.stddev[i], ln) <= LogProbRow(d.mean[i], d.mean[i], d.stddev[i], ln)
  {
    forall i | 0 <= i < |actions| && |actions[i]| == |d.mean[i]| == |d.stddev[i]|
      ensures LogProbRow(actions[i], d.mean[i], d.stddev[i], ln) <= LogProbRow(d.mean[i], d.mean[i], d.stddev[i], ln)
    {
      LogProbMaximalAtMean(actions[i], d.mean[i], d.stddev[i], ln);
    }
  }

  /** The entropy sum is `|sigma| * (0.5 + 0.5 * log(2 pi))` plus the summed log standard deviations. */
  lemma {:induction false} EntropyRowClosedForm(sigma: seq<real>, ln: real -> real)
    ensures EntropyRow(sigma, ln)
         == |sigma| as real * (0.5 + HalfLogTwoPi) + Sum(seq(|sigma|, j requires 0 <= j < |sigma| => ln(sigma[j])))
  {
    if |sigma| > 0 {
      EntropyRowClosedForm(sigma[1..], ln);
      var logs := seq(|sigma|, j requires 0 <= j < |sigma| => ln(sigma[j]));
      assert logs[1..] == seq(|sigma[1..]|, j requires 0 <= j < |sigma[1..]| => ln(sigma[1..][j]));
      MulDistrib(0.5 + HalfLogTwoPi, |sigma| as real, (|sigma| - 1) as real, 1.0);
    }
  }

  /**
   * The policy: opaque actor, critic and estimator networks, the learned noise standard
   * deviation, and the distribution the last `UpdateDistribution` built.
   */
  class HimActorCritic {
    const numActorObs: nat
    const numCriticObs: nat
    const numOneStepObs: nat
    const numActions: nat
    const historySize: nat
    const actorLayers: seq<Layer>
    const criticLayers: seq<Layer>
    /** The actor MLP, one environment row at a time. */
    const actor: seq<real> -> seq<real>
    /** The critic MLP; its single output unit as a real. */
    const critic: seq<real> -> real
    /** The estimator's forward pass: velocity estimate and latent code. */
    const estimator: seq<real> -> (seq<real>, seq<real>)
    var std: seq<real>
    var distribution: Option<Normal>

    constructor(numActorObs: nat, numCriticObs: nat, numOneStepObs: nat, numActions: nat,
                actorHiddenDims: seq<nat>, criticHiddenDims: seq<nat>, initNoiseStd: real,
                actor: seq<real> -> seq<real>, critic: seq<real> -> real,
                estimator: seq<real> -> (seq<real>, seq<real>))
      requires numOneStepObs > 0 && |actorHiddenDims| > 0 && |criticHiddenDims| > 0
      requires forall h :: |estimator(h).0| == VelocityDim && |estimator(h).1| == LatentDim
      requires forall x :: |actor(x)| == numActions
      ensures this.numActorObs == numActorObs && this.numCriticObs == numCriticObs
      ensures this.numOneStepObs == numOneStepObs && this.numActions == numActions
      ensures this.actor == actor && this.critic == critic && this.estimator == estimator
      ensures historySize * numOneStepObs <= numActorObs < (historySize + 1) * numOneStepObs
      ensures |actorLayers| == 2 * |actorHiddenDims| + 1
      ensures forall i :: 0 <= i <= |actorHiddenDims| ==>
        actorLayers[2 * i] == Linear(Widths(ActorInputDim(numOneStepObs), actorHiddenDims, numActions)[i],
                                     Widths(ActorInputDim(numOneStepObs), actorHiddenDims, numActions)[i + 1])
      ensures forall i :: 0 <= i < |actorHiddenDims| ==> actorLayers[2 * i + 1] == Activation
      ensures |criticLayers| == 2 * |criticHiddenDims| + 1
      ensures forall i :: 0 <= i <= |criticHiddenDims| ==>
        criticLayers[2 * i] == Linear(Widths(numCriticObs, criticHiddenDims, 1)[i],
                                      Widths(numCriticObs, criticHiddenDims, 1)[i + 1])
      ensures forall i :: 0 <= i < |criticHiddenDims| ==> criticLayers[2 * i + 1] == Activation
      ensures std == seq(numActions, _ => initNoiseStd) && distribution == None
      ensures Shaped()
    {
      var actorChain := BuildMlp(ActorInputDim(numOneStepObs), actorHiddenDims, numActions);
      var criticChain := BuildMlp(numCriticObs, criticHiddenDims, 1);
      this.numActorObs := numActorObs;
      this.numCriticObs := numCriticObs;
      this.numOneStepObs := numOneStepObs;
      this.numActions := numActions;
      historySize := HistorySize(numActorObs, numOneStepObs);
      this.actor := actor;
      this.critic := critic;
      this.estimator := estimator;
      var actorWidths := Widths(ActorInputDim(numOneStepObs), actorHiddenDims, numActions);
      assert actorChain[2 * 0] == Linear(actorWidths[0], actorWidths[1]);
      assert actorChain[2 * |actorHiddenDims|] == Linear(actorWidths[|actorHiddenDims|], actorWidths[|actorHiddenDims| + 1]);
      actorLayers, criticLayers := actorChain, criticChain;
      std := seq(numActions, _ => initNoiseStd);
      distribution := None;
    }

    /**
     * The shapes the constructor fixes: the actor chain reads the actor input width and writes
     * one entry per action, the estimator and the actor return rows of those widths, and `std`
     * has one entry per action.
     */
    ghost predicate Shaped()
      reads this
    {
      && |actorLayers| > 0 && actorLayers[0].Linear? && actorLayers[|actorLayers| - 1].Linear?
      && actorLayers[0].inFeatures == ActorInputDim(numOneStepObs)
      && actorLayers[|actorLayers| - 1].outFeatures == numActions
      && (forall h :: |estimator(h).0| == VelocityDim && |estimator(h).1| == LatentDim)
      && (forall x :: |actor(x)| == numActions)
      && |std| == numActions
    }

    /** The input assembled for a history holding a full step has the width the actor's first layer reads. */
    lemma ActorInputFitsActor(history: seq<real>)
      requires Shaped() && |history| >= numOneStepObs
      ensures |ActorInputOf(history)| == actorLayers[0].inFeatures
    {
      var (vel, latent) := estimator(history);
      assert |vel| == VelocityDim && |latent| == LatentDim;
    }

    /**
     * The distribution `UpdateDistribution` builds has, in every environment, one mean and one
     * standard deviation per action: the widths `Normal` needs to agree.
     */
    lemma DistributionRowsMatch(obsHistory: seq<seq<real>>)
      requires Shaped()
      ensures var d := Normal(ActInference(obsHistory), Broadcast(std, |obsHistory|));
        && |d.mean| == |d.stddev| == |obsHistory|
        && forall i :: 0 <= i < |obsHistory| ==> |d.mean[i]| == |d.stddev[i]| == numActions
    {
      var d := Normal(ActInference(obsHistory), Broadcast(std, |obsHistory|));
      forall i | 0 <= i < |obsHistory|
        ensures |d.mean[i]| == |d.stddev[i]| == numActions
      {
        assert d.mean[i] == actor(ActorInputOf(obsHistory[i]));
      }
    }

    /** The actor's input for one environment's observation history. */
    function ActorInputOf(history: seq<real>): (r: seq<real>)
    {
      var (vel, latent) := estimator(history);
      ActorInput(history, vel, latent, numOneStepObs)
    }

    /** `act_inference`: the actor's mean action per environment, with no sampling. */
    function ActInference(obsHistory: seq<seq<real>>): (r: seq<seq<real>>)
      ensures |r| == |obsHistory|
    {
      seq(|obsHistory|, i requires 0 <= i < |obsHistory| => actor(ActorInputOf(obsHistory[i])))
    }

    /**
     * An environment's action depends on its own history alone, and of that history only on the
     * newest `numOneStepObs` entries and on what the estimator makes of it: two environments, in
     * the same batch or not, whose histories agree there get the same action.
     */
    lemma ActInferenceReadsNewestStep(batchA: seq<seq<real>>, i: nat, batchB: seq<seq<real>>, j: nat)
      requires i < |batchA| && j < |batchB|
      requires |batchA[i]| >= numOneStepObs && |batchB[j]| >= numOneStepObs
      requires batchA[i][..numOneStepObs] == batchB[j][..numOneStepObs]
      requires estimator(batchA[i]) == estimator(batchB[j])
      ensures ActInference(batchA)[i] == ActInference(batchB)[j]
    {
      assert ActorInputOf(batchA[i]) == ActorInputOf(batchB[j]);
    }

    /** `evaluate`: the critic's value per environment. */
    function Evaluate(criticObservations: seq<seq<real>>): (r: seq<real>)
      ensures |r| == |criticObservations|
    {
      seq(|criticObservations|, i requires 0 <= i < |criticObservations| => critic(criticObservations[i]))
    }

    /** Environments are valued independently: equal critic observations get equal values, in any batch. */
    lemma EvaluatePerEnvironment(batchA: seq<seq<real>>, i: nat, batchB: seq<seq<real>>, j: nat)
      requires i < |batchA| && j < |batchB| && batchA[i] == batchB[j]
      ensures Evaluate(batchA)[i] == Evaluate(batchB)[j]
    {
    }

    /**
     * The distribution is centred on the same mean `ActInference` returns, with the noise
     * standard deviation repeated for every environment.
     */
    method UpdateDistribution(obsHistory: seq<seq<real>>)
      modifies this`distribution
      ensures distribution == Some(Normal(ActInference(obsHistory), Broadcast(std, |obsHistory|)))
    {
      var mean := seq(|obsHistory|, i requires 0 <= i < |obsHistory| => actor(ActorInputOf(obsHistory[i])));
      distribution := Some(Normal(mean, Broadcast(std, |mean|)));
    }

    /** `act`: refreshes the distribution and samples from it with the given standard-normal draw. */
    method Act(obsHistory: seq<seq<real>>, noise: seq<seq<real>>) returns (actions: seq<seq<real>>)
      requires |noise| == |obsHistory|
      requires forall i :: 0 <= i < |obsHistory| ==>
        |actor(ActorInputOf(obsHistory[i]))| == |std| && |noise[i]| == |std|
      modifies this`distribution
      ensures distribution == Some(Normal(ActInference(obsHistory), Broadcast(std, |obsHistory|)))
      ensures |actions| == |obsHistory|
      ensures actions == SampleWith(distribution.value, noise)
    {
      UpdateDistribution(obsHistory);
      actions := SampleWith(distribution.value, noise);
    }

    function ActionMean(): seq<seq<real>>
      reads this
      requires distribution.Some?
    {
      distribution.value.mean
    }

    function ActionStd(): seq<seq<real>>
      reads this
      requires distribution.Some?
    {
      distribution.value.stddev
    }

    /** One entropy per environment; equal for every environment, as they share one std row. */
    function Entropy(ln: real -> real): (r: seq<real>)
      reads this
      requires distribution.Some?
      ensures |r| == |distribution.value.stddev|
      ensures (forall i :: 0 <= i < |distribution.value.stddev| ==> distribution.value.stddev[i] == std) ==>
        forall i :: 0 <= i < |r| ==> r[i] == EntropyRow(std, ln)
    {
      var s := distribution.value.stddev;
      seq(|s|, i requires 0 <= i < |s| => EntropyRow(s[i], ln))
    }

    /** One log-probability per environment: the action's per-dimension log-densities summed. */
    function GetActionsLogProb(actions: seq<seq<real>>, ln: real -> real): (r: seq<real>)
      reads this
      requires distribution.Some?
      requires |actions| == |distribution.value.mean| == |distribution.value.stddev|
      ensures |r| == |actions|
      ensures forall i :: 0 <= i < |r| ==>
        r[i] == LogProbRow(actions[i], distribution.value.mean[i], distribution.value.stddev[i], ln)
      ensures forall i :: 0 <= i < |r| && |actions[i]| == |distribution.value.mean[i]| == |distribution.value.stddev[i]| ==>
        r[i] <= LogProbRow(distribution.value.mean[i], distribution.value.mean[i], distribution.value.stddev[i], ln)
    {
      var d := distribution.value;
      LogProbsMaximalAtMean(actions, d, ln);
      seq(|actions|, i requires 0 <= i < |actions| => LogProbRow(actions[i], d.mean[i], d.stddev[i], ln))
    }

    /** `reset` does nothing. */
    method Reset(dones: Option<seq<bool>>)
      ensures distribution == old(distribution) && std == old(std)
    {
    }

    /** `forward` always raises. */
    method Forward() returns (outcome: Outcome<ModuleError>)
      ensures outcome == Fail(NotImplemented)
    {
      outcome := Fail(NotImplemented);
    }
  }
}
