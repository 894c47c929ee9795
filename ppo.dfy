/**
 * HIM PPO: the algorithm object that fills the pending transition while acting, appends it to
 * the rollout storage after each environment step, computes returns, and runs the PPO update
 * over the mini-batches. The scalar rules (adaptive learning rate, time-out bootstrapping,
 * clipped surrogate, clipped value loss) are pure functions; the gradient step is not modelled.
 */
module Ppo {
  import opened Wrappers
  import opened Numerics
  import opened RolloutStorage
  import opened ActorCritic

  // ---------------------------------------------------------------------------------------
  // Learning-rate schedule

  const MinLearningRate: real := 0.00001
  const MaxLearningRate: real := 0.01

  /**
   * One step of the adaptive schedule: a KL above twice the target divides the rate by 1.5
   * (not below `MinLearningRate`), a positive KL below half the target multiplies it by 1.5
   * (not above `MaxLearningRate`), anything in between leaves it alone.
   */
  function AdaptiveLr(lr: real, klMean: real, desiredKl: real): (r: real)
    ensures klMean > desiredKl * 2.0 ==> r == Max(MinLearningRate, lr / 1.5)
    ensures klMean > desiredKl * 2.0 && lr >= MinLearningRate ==> MinLearningRate <= r <= lr
    ensures !(klMean > desiredKl * 2.0) && 0.0 < klMean < desiredKl / 2.0 ==> r == Min(MaxLearningRate, lr * 1.5)
    ensures !(klMean > desiredKl * 2.0) && 0.0 < klMean < desiredKl / 2.0 && 0.0 <= lr <= MaxLearningRate ==>
      lr <= r <= MaxLearningRate
    ensures !(klMean > desiredKl * 2.0) && !(0.0 < klMean < desiredKl / 2.0) ==> r == lr
    ensures MinLearningRate <= lr <= MaxLearningRate ==> MinLearningRate <= r <= MaxLearningRate
  {
    if klMean > desiredKl * 2.0 then Max(MinLearningRate, lr / 1.5)
    else if klMean < desiredKl / 2.0 && klMean > 0.0 then Min(MaxLearningRate, lr * 1.5)
    else lr
  }

  /** The rate after the adaptive steps for `klMeans`, one per mini-batch, in order. */
  function LrSchedule(lr: real, klMeans: seq<real>, desiredKl: real): real
  {
    if |klMeans| == 0 then lr
    else AdaptiveLr(LrSchedule(lr, klMeans[..|klMeans| - 1], desiredKl), klMeans[|klMeans| - 1], desiredKl)
  }

  /** A rate that starts within the clamps stays within them, whatever KL values are met. */
  lemma {:induction false} LrScheduleInRange(lr: real, klMeans: seq<real>, desiredKl: real)
    requires MinLearningRate <= lr <= MaxLearningRate
    ensures MinLearningRate <= LrSchedule(lr, klMeans, desiredKl) <= MaxLearningRate
  {
    if |klMeans| > 0 {
      LrScheduleInRange(lr, klMeans[..|klMeans| - 1], desiredKl);
    }
  }

  // ---------------------------------------------------------------------------------------
  // Time-out bootstrapping

  /**
   * `rewards + gamma * values * time_outs` when the step reports time-outs, `rewards` as given
   * otherwise. A fresh sequence: the caller's rewards are not touched.
   */
  function BootstrapRewards(rewards: seq<real>, values: seq<real>, timeOuts: Option<seq<bool>>, gamma: real): (r: seq<real>)
    requires |values| == |rewards| && (timeOuts.Some? ==> |timeOuts.value| == |rewards|)
    ensures |r| == |rewards|
    ensures timeOuts.None? ==> r == rewards
    ensures timeOuts.Some? ==> forall e :: 0 <= e < |r| ==> !timeOuts.value[e] ==> r[e] == rewards[e]
  {
    match timeOuts
    case None => rewards
    case Some(outs) =>
      seq(|rewards|, e requires 0 <= e < |rewards| => rewards[e] + gamma * (values[e] * (if outs[e] then 1.0 else 0.0)))
  }

  lemma ScaleByOne(gamma: real, v: real)
    ensures gamma * (v * 1.0) == gamma * v
  {
  }

  /** A timed-out environment's reward gains `gamma` times its value estimate. */
  lemma TimedOutReward(rewards: seq<real>, values: seq<real>, outs: seq<bool>, gamma: real, e: nat)
    requires |values| == |rewards| == |outs| && e < |rewards| && outs[e]
    ensures BootstrapRewards(rewards, values, Some(outs), gamma)[e] == rewards[e] + gamma * values[e]
  {
    ScaleByOne(gamma, values[e]);
  }

  /**
   * A step that ends its episode by time-out is done, so its return is its recorded reward,
   * which bootstrapping made `reward + gamma * value`: the value estimate stands in for the
   * truncated future.
   */
  lemma TimeOutReturn(rows: seq<StepRecord>, lastValues: seq<real>, gamma: real, lam: real, t: nat, e: nat,
                      rewards: seq<real>, outs: seq<bool>)
    requires Rect(rows, |lastValues|) && t < |rows| && e < |lastValues|
    requires |rewards| == |outs| == |lastValues| && outs[e] && rows[t].dones[e]
    requires rows[t].rewards == BootstrapRewards(rewards, rows[t].values, Some(outs), gamma)
    ensures Returns(rows, lastValues, gamma, lam)[t][e] == rewards[e] + gamma * rows[t].values[e]
  {
    DoneReturnIsReward(rows, lastValues, gamma, lam, t, e);
    TimedOutReward(rewards, rows[t].values, outs, gamma, e);
  }

  // ---------------------------------------------------------------------------------------
  // Losses

  /**
   * The clipped surrogate of one sample: `max(-A * r, -A * clamp(r, 1 - clip, 1 + clip))`,
   * the negation of the PPO objective `min(r * A, clip(r) * A)`.
   */
  function Surrogate(advantage: real, ratio: real, clip: real): (r: real)
    ensures r >= -advantage * ratio
    ensures r >= -advantage * Clamp(ratio, 1.0 - clip, 1.0 + clip)
    ensures r == -advantage * ratio || r == -advantage * Clamp(ratio, 1.0 - clip, 1.0 + clip)
  {
    Max(-advantage * ratio, -advantage * Clamp(ratio, 1.0 - clip, 1.0 + clip))
  }

  /** Inside the trust region the clipping does nothing. */
  lemma SurrogateUnclippedInRange(advantage: real, ratio: real, clip: real)
    requires 1.0 - clip <= ratio <= 1.0 + clip
    ensures Surrogate(advantage, ratio, clip) == -advantage * ratio
  {
  }

  lemma NegMul(a: real, b: real)
    ensures -a * b == -(a * b)
  {
  }

  lemma MulComm(a: real, b: real)
    ensures a * b == b * a
  {
  }

  /** The surrogate is the negated pessimistic objective of the PPO paper. */
  lemma SurrogateIsNegatedMin(advantage: real, ratio: real, clip: real)
    ensures Surrogate(advantage, ratio, clip)
         == -Min(ratio * advantage, Clamp(ratio, 1.0 - clip, 1.0 + clip) * advantage)
  {
    var c := Clamp(ratio, 1.0 - clip, 1.0 + clip);
    NegMul(advantage, ratio);
    NegMul(advantage, c);
    MulComm(advantage, ratio);
    MulComm(advantage, c);
  }

  /** `target + clamp(value - target, -clip, clip)`: the value moved at most `clip` from the old one. */
  function ValueClipped(target: real, value: real, clip: real): (r: real)
    ensures clip >= 0.0 ==> target - clip <= r <= target + clip
    ensures clip >= 0.0 && target - clip <= value <= target + clip ==> r == value
  {
    target + Clamp(value - target, -clip, clip)
  }

  function Square(x: real): real { x * x }

  /**
   * The value loss of one sample: with clipping, the larger of the unclipped and the clipped
   * squared errors; without, the plain squared error.
   */
  function ValueLossSample(value: real, target: real, ret: real, clip: real, useClipped: bool): (r: real)
    ensures useClipped ==> r >= Square(value - ret) && r >= Square(ValueClipped(target, value, clip) - ret)
    ensures useClipped ==> r == Square(value - ret) || r == Square(ValueClipped(target, value, clip) - ret)
    ensures !useClipped ==> r == Square(ret - value)
  {
    if useClipped then Max(Square(value - ret), Square(ValueClipped(target, value, clip) - ret))
    else Square(ret - value)
  }

  lemma SquareSymmetric(a: real, b: real)
    ensures Square(a - b) == Square(b - a)
  {
  }

  /**
   * Clipping never lowers the loss below the squared error, and when the new value stays within
   * `clip` of the old one the clipped and the unclipped losses agree.
   */
  lemma ValueLossBounds(value: real, target: real, ret: real, clip: real, useClipped: bool)
    ensures ValueLossSample(value, target, ret, clip, useClipped) >= Square(ret - value)
    ensures clip >= 0.0 && target - clip <= value <= target + clip ==>
      ValueLossSample(value, target, ret, clip, useClipped) == Square(ret - value)
  {
    SquareSymmetric(value, ret);
  }

  /** `surrogate + value_loss_coef * value_loss - entropy_coef * entropy`. */
  function CombinedLoss(surrogateLoss: real, valueLoss: real, entropyMean: real, valueLossCoef: real, entropyCoef: real): real
  {
    surrogateLoss + valueLossCoef * valueLoss - entropyCoef * entropyMean
  }

  lemma MulMonotone(c: real, x: real, y: real)
    requires c >= 0.0 && x <= y
    ensures c * x <= c * y
  {
  }

  /**
   * With non-negative coefficients the loss grows with the surrogate and the value loss and
   * shrinks as the entropy grows.
   */
  lemma CombinedLossMonotone(s1: real, s2: real, v1: real, v2: real, h1: real, h2: real, valueLossCoef: real, entropyCoef: real)
    requires valueLossCoef >= 0.0 && entropyCoef >= 0.0
    requires s1 <= s2 && v1 <= v2 && h1 >= h2
    ensures CombinedLoss(s1, v1, h1, valueLossCoef, entropyCoef) <= CombinedLoss(s2, v2, h2, valueLossCoef, entropyCoef)
  {
    MulMonotone(valueLossCoef, v1, v2);
    MulMonotone(entropyCoef, h2, h1);
    assert valueLossCoef * v1 <= valueLossCoef * v2 && entropyCoef * h2 <= entropyCoef * h1;
  }

  // Columns of a mini-batch

  function Observations(batch: seq<Sample>): (r: seq<seq<real>>)
    ensures |r| == |batch| && forall i :: 0 <= i < |batch| ==> r[i] == batch[i].observation
  {
    seq(|batch|, i requires 0 <= i < |batch| => batch[i].observation)
  }

  function CriticObservations(batch: seq<Sample>): (r: seq<seq<real>>)
    ensures |r| == |batch| && forall i :: 0 <= i < |batch| ==> r[i] == batch[i].criticObservation
  {
    seq(|batch|, i requires 0 <= i < |batch| => batch[i].criticObservation)
  }

  function NextCriticObservations(batch: seq<Sample>): (r: seq<seq<real>>)
    ensures |r| == |batch| && forall i :: 0 <= i < |batch| ==> r[i] == batch[i].nextCriticObservation
  {
    seq(|batch|, i requires 0 <= i < |batch| => batch[i].nextCriticObservation)
  }

  function Actions(batch: seq<Sample>): (r: seq<seq<real>>)
    ensures |r| == |batch| && forall i :: 0 <= i < |batch| ==> r[i] == batch[i].action
  {
    seq(|batch|, i requires 0 <= i < |batch| => batch[i].action)
  }

  /** The mean clipped surrogate over a batch, given each sample's probability ratio. */
  function SurrogateLoss(batch: seq<Sample>, ratios: seq<real>, clip: real): real
    requires |ratios| == |batch|
  {
    Mean(seq(|batch|, i requires 0 <= i < |batch| => Surrogate(batch[i].advantage, ratios[i], clip)))
  }

  /** The mean value loss over a batch, given the critic's new values. */
  function ValueLoss(batch: seq<Sample>, values: seq<real>, clip: real, useClipped: bool): real
    requires |values| == |batch|
  {
    Mean(seq(|batch|, i requires 0 <= i < |batch| =>
      ValueLossSample(values[i], batch[i].targetValue, batch[i].returnValue, clip, useClipped)))
  }

  /** `exp(new_log_prob - old_log_prob)`, the exponential being a parameter. */
  function Ratios(batch: seq<Sample>, logProbs: seq<real>, exp: real -> real): (r: seq<real>)
    requires |logProbs| == |batch|
    ensures |r| == |batch|
  {
    seq(|batch|, i requires 0 <= i < |batch| => exp(logProbs[i] - batch[i].oldActionsLogProb))
  }

  // ---------------------------------------------------------------------------------------
  // The algorithm

  class HimPpo {
    const actorCritic: HimActorCritic
    const transition: Transition
    var storage: Storage?
    var learningRate: real
    /** The learning rate of each optimizer parameter group. */
    var paramGroupLrs: seq<real>
    const desiredKl: Option<real>
    const schedule: string
    const clipParam: real
    const numLearningEpochs: nat
    const numMiniBatches: nat
    const gamma: real
    const lam: real
    const valueLossCoef: real
    const entropyCoef: real
    const maxGradNorm: real
    const useClippedValueLoss: bool

    constructor(actorCritic: HimActorCritic, numLearningEpochs: nat, numMiniBatches: nat, clipParam: real,
                gamma: real, lam: real, valueLossCoef: real, entropyCoef: real, learningRate: real,
                maxGradNorm: real, useClippedValueLoss: bool, schedule: string, desiredKl: Option<real>)
      ensures this.actorCritic == actorCritic && fresh(transition) && transition.IsEmpty() && storage == null
      ensures this.learningRate == learningRate && paramGroupLrs == [learningRate]
      ensures this.numLearningEpochs == numLearningEpochs && this.numMiniBatches == numMiniBatches
      ensures this.clipParam == clipParam && this.gamma == gamma && this.lam == lam
      ensures this.valueLossCoef == valueLossCoef && this.entropyCoef == entropyCoef
      ensures this.maxGradNorm == maxGradNorm && this.useClippedValueLoss == useClippedValueLoss
      ensures this.schedule == schedule && this.desiredKl == desiredKl
    {
      this.actorCritic := actorCritic;
      var t := new Transition();
      transition := t;
      storage := null;
      this.learningRate := learningRate;
      paramGroupLrs := [learningRate];
      this.desiredKl := desiredKl;
      this.schedule := schedule;
      this.clipParam := clipParam;
      this.numLearningEpochs := numLearningEpochs;
      this.numMiniBatches := numMiniBatches;
      this.gamma := gamma;
      this.lam := lam;
      this.valueLossCoef := valueLossCoef;
      this.entropyCoef := entropyCoef;
      this.maxGradNorm := maxGradNorm;
      this.useClippedValueLoss := useClippedValueLoss;
    }

    /** Whether `update` adapts the learning rate. */
    predicate Adaptive()
    {
      desiredKl.Some? && schedule == "adaptive"
    }

    method InitStorage(numEnvs: nat, numTransitionsPerEnv: nat, actorObsDim: nat, criticObsDim: Option<nat>, actionDim: nat)
      modifies this`storage
      ensures storage != null && fresh(storage) && fresh(storage.rows) && fresh(storage.returnValues)
      ensures storage.Valid() && storage.step == 0
      ensures storage.numEnvs == numEnvs && storage.numTransitionsPerEnv == numTransitionsPerEnv
      ensures storage.hasPrivileged == criticObsDim.Some?
    {
      storage := new Storage(numEnvs, numTransitionsPerEnv, actorObsDim, criticObsDim, actionDim);
    }

    /**
     * Acts on `obs`: samples the actions with the given standard-normal draw and records them,
     * their values, log-probabilities, the distribution's mean and std, and both observations
     * in the pending transition. Rewards, dones and next observations are left as they were.
     */
    method Act(obs: seq<seq<real>>, criticObs: seq<seq<real>>, noise: seq<seq<real>>, ln: real -> real)
      returns (actions: seq<seq<real>>)
      requires |noise| == |obs|
      requires forall i :: 0 <= i < |obs| ==>
        |actorCritic.actor(actorCritic.ActorInputOf(obs[i]))| == |actorCritic.std| && |noise[i]| == |actorCritic.std|
      modifies transition, actorCritic`distribution
      ensures actorCritic.distribution == Some(Normal(actorCritic.ActInference(obs), Broadcast(actorCritic.std, |obs|)))
      ensures actions == SampleWith(actorCritic.distribution.value, noise)
      ensures transition.actions == Some(actions)
      ensures transition.values == Some(actorCritic.Evaluate(criticObs))
      ensures transition.actionsLogProb == Some(actorCritic.GetActionsLogProb(actions, ln))
      ensures transition.actionMean == Some(actorCritic.ActInference(obs))
      ensures transition.actionSigma == Some(Broadcast(actorCritic.std, |obs|))
      ensures transition.observations == Some(obs) && transition.criticObservations == Some(criticObs)
      ensures transition.rewards == old(transition.rewards) && transition.dones == old(transition.dones)
      ensures transition.nextCriticObservations == old(transition.nextCriticObservations)
    {
      actions := actorCritic.Act(obs, noise);
      transition.actions := Some(actions);
      transition.values := Some(actorCritic.Evaluate(criticObs));
      transition.actionsLogProb := Some(actorCritic.GetActionsLogProb(actions, ln));
      transition.actionMean := Some(actorCritic.ActionMean());
      transition.actionSigma := Some(actorCritic.ActionStd());
      transition.observations := Some(obs);
      transition.criticObservations := Some(criticObs);
    }

    /** What `Act` left in the pending transition, one entry per environment. */
    predicate ActDone(n: nat)
      reads transition
    {
      && transition.observations.Some? && |transition.observations.value| == n
      && transition.criticObservations.Some? && |transition.criticObservations.value| == n
      && transition.actions.Some? && |transition.actions.value| == n
      && transition.values.Some? && |transition.values.value| == n
      && transition.actionsLogProb.Some? && |transition.actionsLogProb.value| == n
      && transition.actionMean.Some? && |transition.actionMean.value| == n
      && transition.actionSigma.Some? && |transition.actionSigma.value| == n
    }

    /** The row the pending transition becomes, once the step's outcome is known. */
    function PendingRecord(previous: StepRecord, privileged: bool, rewards: seq<real>, dones: seq<bool>,
                           nextCriticObs: seq<seq<real>>): StepRecord
      reads transition
      requires ActDone(|rewards|)
    {
      StepRecord(
        transition.observations.value,
        if privileged then transition.criticObservations.value else previous.privilegedObservations,
        if privileged then nextCriticObs else previous.nextPrivilegedObservations,
        transition.actions.value, rewards, dones, transition.values.value,
        transition.actionsLogProb.value, transition.actionMean.value, transition.actionSigma.value)
    }

    /**
     * Completes the pending transition with the step's outcome (rewards bootstrapped on time-outs)
     * and appends it to the storage as exactly one new row, then empties the transition. A full
     * storage raises before the transition is emptied.
     */
    method ProcessEnvStep(rewards: seq<real>, dones: seq<bool>, timeOuts: Option<seq<bool>>, nextCriticObs: seq<seq<real>>)
      returns (outcome: Outcome<StorageError>)
      requires storage != null && storage.Valid()
      requires ActDone(storage.numEnvs)
      requires |rewards| == |dones| == |nextCriticObs| == storage.numEnvs
      requires timeOuts.Some? ==> |timeOuts.value| == storage.numEnvs
      modifies transition, storage`step, storage.rows
      ensures storage.Valid()
      ensures transition.rewards == (if outcome.Pass? then None
        else Some(BootstrapRewards(rewards, old(transition.values.value), timeOuts, gamma)))
      ensures old(storage.step) < storage.numTransitionsPerEnv ==>
        && outcome == Pass && transition.IsEmpty()
        && storage.step == old(storage.step) + 1
        && storage.rows[..] == old(storage.rows[..])[old(storage.step) :=
             old(PendingRecord(storage.rows[storage.step], storage.hasPrivileged,
                               BootstrapRewards(rewards, transition.values.value, timeOuts, gamma), dones, nextCriticObs))]
      ensures old(storage.step) >= storage.numTransitionsPerEnv ==>
        && outcome == Fail(RolloutBufferOverflow)
        && storage.step == old(storage.step) && storage.rows[..] == old(storage.rows[..])
        && transition.dones == Some(dones) && transition.nextCriticObservations == Some(nextCriticObs)
        && transition.observations == old(transition.observations)
        && transition.criticObservations == old(transition.criticObservations)
        && transition.actions == old(transition.actions)
        && transition.values == old(transition.values)
        && transition.actionsLogProb == old(transition.actionsLogProb)
        && transition.actionMean == old(transition.actionMean)
        && transition.actionSigma == old(transition.actionSigma)
    {
      var n := storage.numEnvs;
      transition.nextCriticObservations := Some(nextCriticObs);
      transition.rewards := Some(rewards);
      transition.dones := Some(dones);
      transition.rewards := Some(BootstrapRewards(rewards, transition.values.value, timeOuts, gamma));
      assert storage.step < storage.numTransitionsPerEnv ==>
        storage.step < storage.rows.Length && Shaped(storage.rows[..][storage.step], n);
      outcome := storage.AddTransitions(transition);
      if outcome.Pass? {
        transition.Clear();
        actorCritic.Reset(Some(dones));
      }
    }

    /** Evaluates the critic on the last observations and runs the storage's GAE pass from them. */
    method ComputeReturns(lastCriticObs: seq<seq<real>>, sqrt: real -> real)
      requires storage != null && storage.Valid() && |lastCriticObs| == storage.numEnvs
      requires forall x :: 0.0 <= x ==> 0.0 <= sqrt(x)
      modifies storage.returnValues, storage`advantages
      ensures storage.Valid()
      ensures storage.returnValues[..] == Returns(storage.rows[..], actorCritic.Evaluate(lastCriticObs), gamma, lam)
      ensures storage.advantages
           == NormalizedAdvantages(RawAdvantages(storage.returnValues[..], storage.rows[..], storage.numEnvs), sqrt)
    {
      var lastValues := actorCritic.Evaluate(lastCriticObs);
      storage.ComputeReturns(lastValues, gamma, lam, sqrt);
    }

    /** The log-probabilities of a batch's actions under the policy with standard deviation `std`. */
    function BatchLogProbs(batch: seq<Sample>, std: seq<real>, ln: real -> real): (r: seq<real>)
      ensures |r| == |batch|
    {
      seq(|batch|, i requires 0 <= i < |batch| =>
        LogProbRow(batch[i].action, actorCritic.actor(actorCritic.ActorInputOf(batch[i].observation)), std, ln))
    }

    function BatchSurrogateLoss(batch: seq<Sample>, std: seq<real>, exp: real -> real, ln: real -> real): real
    {
      SurrogateLoss(batch, Ratios(batch, BatchLogProbs(batch, std, ln), exp), clipParam)
    }

    function BatchValueLoss(batch: seq<Sample>): real
    {
      ValueLoss(batch, actorCritic.Evaluate(CriticObservations(batch)), clipParam, useClippedValueLoss)
    }

    /** The value losses of `batches` added up in order. */
    function TotalValueLoss(batches: seq<seq<Sample>>): real
    {
      if |batches| == 0 then 0.0 else TotalValueLoss(batches[..|batches| - 1]) + BatchValueLoss(batches[|batches| - 1])
    }

    /** The surrogate losses of `batches` added up in order. */
    function TotalSurrogateLoss(batches: seq<seq<Sample>>, std: seq<real>, exp: real -> real, ln: real -> real): real
    {
      if |batches| == 0 then 0.0
      else TotalSurrogateLoss(batches[..|batches| - 1], std, exp, ln) + BatchSurrogateLoss(batches[|batches| - 1], std, exp, ln)
    }

    /** The mini-batches of the update, as the storage's generator yields them. */
    function Batches(indices: seq<nat>): (r: seq<seq<Sample>>)
      reads this, storage, storage.rows, storage.returnValues
      requires storage != null && storage.Valid() && numMiniBatches > 0
      requires IsPermutation(indices, numMiniBatches * (storage.numEnvs * storage.numTransitionsPerEnv / numMiniBatches))
      ensures |r| == numLearningEpochs * numMiniBatches
    {
      var s := storage;
      var samples := Samples(s.rows[..], s.returnValues[..], s.advantages, s.numEnvs, s.hasPrivileged);
      DivMulLe(s.numEnvs * s.numTransitionsPerEnv, numMiniBatches);
      RepeatLength(OneEpoch(samples, indices, numMiniBatches, s.numEnvs * s.numTransitionsPerEnv / numMiniBatches),
                   numLearningEpochs);
      Repeat(OneEpoch(samples, indices, numMiniBatches, s.numEnvs * s.numTransitionsPerEnv / numMiniBatches),
             numLearningEpochs)
    }

    /**
     * The work on one mini-batch: refresh the policy's distribution on the batch's observations,
     * adapt the learning rate to the batch's KL and hand it to every parameter group, update the
     * estimator at that rate, and compute the batch's clipped surrogate and value losses and the
     * combined loss the gradient step would minimise.
     */
    method TrainOnBatch(batch: seq<Sample>, klMean: real, exp: real -> real, ln: real -> real,
                        estimatorUpdate: (seq<seq<real>>, seq<seq<real>>, real) -> (real, real))
      returns (valueLoss: real, surrogateLoss: real, estimation: real, swap: real, loss: real)
      modifies this`learningRate, this`paramGroupLrs, actorCritic`distribution
      ensures actorCritic.distribution
           == Some(Normal(actorCritic.ActInference(Observations(batch)), Broadcast(actorCritic.std, |batch|)))
      ensures learningRate == if Adaptive() then AdaptiveLr(old(learningRate), klMean, desiredKl.value) else old(learningRate)
      ensures Adaptive() ==> forall g :: 0 <= g < |paramGroupLrs| ==> paramGroupLrs[g] == learningRate
      ensures !Adaptive() ==> paramGroupLrs == old(paramGroupLrs)
      ensures (estimation, swap) == estimatorUpdate(Observations(batch), NextCriticObservations(batch), learningRate)
      ensures valueLoss == BatchValueLoss(batch)
      ensures surrogateLoss == BatchSurrogateLoss(batch, actorCritic.std, exp, ln)
      ensures loss == CombinedLoss(surrogateLoss, valueLoss, Mean(actorCritic.Entropy(ln)), valueLossCoef, entropyCoef)
    {
      var obsBatch := Observations(batch);
      actorCritic.UpdateDistribution(obsBatch);
      var logProbs := actorCritic.GetActionsLogProb(Actions(batch), ln);
      assert logProbs == BatchLogProbs(batch, actorCritic.std, ln);
      var values := actorCritic.Evaluate(CriticObservations(batch));

      if Adaptive() {
        learningRate := AdaptiveLr(learningRate, klMean, desiredKl.value);
        var lr := learningRate;
        paramGroupLrs := seq(|paramGroupLrs|, _ => lr);
      }

      estimation, swap := estimatorUpdate(obsBatch, NextCriticObservations(batch), learningRate).0,
                          estimatorUpdate(obsBatch, NextCriticObservations(batch), learningRate).1;

      surrogateLoss := SurrogateLoss(batch, Ratios(batch, logProbs, exp), clipParam);
      valueLoss := ValueLoss(batch, values, clipParam, useClippedValueLoss);
      // The gradient step on this loss, with gradient-norm clipping, is not modelled.
      loss := CombinedLoss(surrogateLoss, valueLoss, Mean(actorCritic.Entropy(ln)), valueLossCoef, entropyCoef);
    }

    /**
     * The loop of one PPO update: every batch goes through `TrainOnBatch` in order. Returns the
     * value and surrogate losses added up over the batches and the last batch's estimation and
     * swap losses.
     */
    method TrainOnBatches(batches: seq<seq<Sample>>, klMeans: seq<real>, exp: real -> real, ln: real -> real,
                          estimatorUpdate: (seq<seq<real>>, seq<seq<real>>, real) -> (real, real))
      returns (totalValueLoss: real, totalSurrogateLoss: real, estimationLoss: real, swapLoss: real)
      requires |batches| > 0 && |klMeans| == |batches|
      modifies this`learningRate, this`paramGroupLrs, actorCritic`distribution
      ensures learningRate == if Adaptive() then LrSchedule(old(learningRate), klMeans, desiredKl.value) else old(learningRate)
      ensures Adaptive() ==> forall g :: 0 <= g < |paramGroupLrs| ==> paramGroupLrs[g] == learningRate
      ensures !Adaptive() ==> paramGroupLrs == old(paramGroupLrs)
      ensures totalValueLoss == TotalValueLoss(batches)
      ensures totalSurrogateLoss == TotalSurrogateLoss(batches, actorCritic.std, exp, ln)
      ensures (estimationLoss, swapLoss)
           == estimatorUpdate(Observations(batches[|batches| - 1]), NextCriticObservations(batches[|batches| - 1]),
                              learningRate)
    {
      var std := actorCritic.std;
      totalValueLoss, totalSurrogateLoss := 0.0, 0.0;
      estimationLoss, swapLoss := 0.0, 0.0;
      var j := 0;
      while j < |batches|
        invariant 0 <= j <= |batches|
        invariant learningRate == if Adaptive() then LrSchedule(old(learningRate), klMeans[..j], desiredKl.value) else old(learningRate)
        invariant Adaptive() && j > 0 ==> forall g :: 0 <= g < |paramGroupLrs| ==> paramGroupLrs[g] == learningRate
        invariant !Adaptive() ==> paramGroupLrs == old(paramGroupLrs)
        invariant totalValueLoss == TotalValueLoss(batches[..j])
        invariant actorCritic.std == std
        invariant totalSurrogateLoss == TotalSurrogateLoss(batches[..j], std, exp, ln)
        invariant j > 0 ==>
          (estimationLoss, swapLoss)
            == estimatorUpdate(Observations(batches[j - 1]), NextCriticObservations(batches[j - 1]), learningRate)
      {
        var valueLoss, surrogateLoss, estimation, swap, _ := TrainOnBatch(batches[j], klMeans[j], exp, ln, estimatorUpdate);
        assert klMeans[..j + 1][..j] == klMeans[..j];
        assert batches[..j + 1][..j] == batches[..j];
        totalValueLoss := totalValueLoss + valueLoss;
        totalSurrogateLoss := totalSurrogateLoss + surrogateLoss;
        estimationLoss, swapLoss := estimation, swap;
        j := j + 1;
      }
      assert batches[..|batches|] == batches;
      assert klMeans[..|batches|] == klMeans;
    }

    /**
     * One PPO update: every mini-batch of `numLearningEpochs` passes over one permutation goes
     * through `TrainOnBatch` in order. Returns the mean value and surrogate losses but the last
     * batch's estimation and swap losses, and clears the storage.
     */
    method Update(indices: seq<nat>, klMeans: seq<real>, exp: real -> real, ln: real -> real,
                  estimatorUpdate: (seq<seq<real>>, seq<seq<real>>, real) -> (real, real))
      returns (meanValueLoss: real, meanSurrogateLoss: real, estimationLoss: real, swapLoss: real)
      requires storage != null && storage.Valid()
      requires numLearningEpochs > 0 && numMiniBatches > 0
      requires IsPermutation(indices, numMiniBatches * (storage.numEnvs * storage.numTransitionsPerEnv / numMiniBatches))
      requires |klMeans| == numLearningEpochs * numMiniBatches
      modifies this`learningRate, this`paramGroupLrs, actorCritic`distribution, storage`step
      ensures storage.Valid() && storage.step == 0
      ensures learningRate == if Adaptive() then LrSchedule(old(learningRate), klMeans, desiredKl.value) else old(learningRate)
      ensures Adaptive() ==> forall g :: 0 <= g < |paramGroupLrs| ==> paramGroupLrs[g] == learningRate
      ensures !Adaptive() ==> paramGroupLrs == old(paramGroupLrs)
      ensures var batches := old(Batches(indices));
        && meanValueLoss == TotalValueLoss(batches) / |batches| as real
        && meanSurrogateLoss == TotalSurrogateLoss(batches, actorCritic.std, exp, ln) / |batches| as real
        && (estimationLoss, swapLoss)
           == estimatorUpdate(Observations(batches[|batches| - 1]), NextCriticObservations(batches[|batches| - 1]),
                              learningRate)
    {
      var batches := storage.MiniBatchGenerator(numMiniBatches, numLearningEpochs, indices);
      assert batches == Batches(indices);
      var totalValueLoss, totalSurrogateLoss;
      totalValueLoss, totalSurrogateLoss, estimationLoss, swapLoss := TrainOnBatches(batches, klMeans, exp, ln, estimatorUpdate);
      var numUpdates := (numLearningEpochs * numMiniBatches) as real;
      meanValueLoss := totalValueLoss / numUpdates;
      meanSurrogateLoss := totalSurrogateLoss / numUpdates;
      storage.Clear();
    }
  }
}
