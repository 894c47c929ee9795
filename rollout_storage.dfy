/**
 * The rollout buffer of HIM PPO: `num_transitions_per_env` rows of experience for `num_envs`
 * environments, filled one row per environment step, turned into returns and normalised
 * advantages by generalised advantage estimation, and served back as shuffled mini-batches.
 *
 * The source keeps one tensor per field, each of shape [T, N, ...]; here row `t` of all of them
 * is one `StepRecord`, so the buffer is a single array of records (row-major, as the tensors are).
 * Trailing singleton dimensions (`[T, N, 1]`) are dropped: rewards, dones, values and log
 * probabilities are `seq<real>`/`seq<bool>` per row.
 */
module RolloutStorage {
  import opened Wrappers
  import opened Numerics

  /** Row `t` of every per-field buffer, one entry per environment. */
  datatype StepRecord = StepRecord(
    observations: seq<seq<real>>,
    privilegedObservations: seq<seq<real>>,
    nextPrivilegedObservations: seq<seq<real>>,
    actions: seq<seq<real>>,
    rewards: seq<real>,
    dones: seq<bool>,
    values: seq<real>,
    actionsLogProb: seq<real>,
    mu: seq<seq<real>>,
    sigma: seq<seq<real>>)

  datatype StorageError = RolloutBufferOverflow

  /** Every field of the record has one entry per environment. */
  predicate Shaped(r: StepRecord, n: nat)
  {
    && |r.observations| == n && |r.privilegedObservations| == n
    && |r.nextPrivilegedObservations| == n && |r.actions| == n
    && |r.rewards| == n && |r.dones| == n && |r.values| == n
    && |r.actionsLogProb| == n && |r.mu| == n && |r.sigma| == n
  }

  predicate Rect(rows: seq<StepRecord>, n: nat)
  {
    forall t :: 0 <= t < |rows| ==> Shaped(rows[t], n)
  }

  function Zeros(n: nat, width: nat): seq<seq<real>>
  {
    seq(n, _ => seq(width, _ => 0.0))
  }

  /** Every row of `m` has `width` entries, all of them zero. */
  predicate AllZero(m: seq<seq<real>>, width: nat)
  {
    forall e :: 0 <= e < |m| ==> |m[e]| == width && forall j :: 0 <= j < width ==> m[e][j] == 0.0
  }

  /** A row of the freshly allocated buffers: zeros everywhere, no environment done. */
  function ZeroRecord(n: nat, obsDim: nat, privilegedDim: nat, actionDim: nat): (r: StepRecord)
    ensures Shaped(r, n)
    ensures AllZero(r.observations, obsDim) && AllZero(r.actions, actionDim)
    ensures AllZero(r.privilegedObservations, privilegedDim) && AllZero(r.nextPrivilegedObservations, privilegedDim)
    ensures AllZero(r.mu, actionDim) && AllZero(r.sigma, actionDim)
    ensures forall e :: 0 <= e < n ==>
      && r.rewards[e] == 0.0 && !r.dones[e] && r.values[e] == 0.0 && r.actionsLogProb[e] == 0.0
  {
    StepRecord(Zeros(n, obsDim), Zeros(n, privilegedDim), Zeros(n, privilegedDim), Zeros(n, actionDim),
               seq(n, _ => 0.0), seq(n, _ => false), seq(n, _ => 0.0), seq(n, _ => 0.0),
               Zeros(n, actionDim), Zeros(n, actionDim))
  }

  /** The transition being assembled by the algorithm between two calls of `AddTransitions`. */
  class Transition {
    var observations: Option<seq<seq<real>>>
    var criticObservations: Option<seq<seq<real>>>
    var actions: Option<seq<seq<real>>>
    var rewards: Option<seq<real>>
    var dones: Option<seq<bool>>
    var values: Option<seq<real>>
    var actionsLogProb: Option<seq<real>>
    var actionMean: Option<seq<seq<real>>>
    var actionSigma: Option<seq<seq<real>>>
    var nextCriticObservations: Option<seq<seq<real>>>

    predicate IsEmpty()
      reads this
    {
      && observations.None? && criticObservations.None? && actions.None? && rewards.None?
      && dones.None? && values.None? && actionsLogProb.None? && actionMean.None?
      && actionSigma.None? && nextCriticObservations.None?
    }

    constructor()
      ensures IsEmpty()
    {
      observations, criticObservations, actions, rewards := None, None, None, None;
      dones, values, actionsLogProb := None, None, None;
      actionMean, actionSigma, nextCriticObservations := None, None, None;
    }

    /** Every field back to None, as a fresh transition. */
    method Clear()
      modifies this
      ensures IsEmpty()
    {
      observations, criticObservations, actions, rewards := None, None, None, None;
      dones, values, actionsLogProb := None, None, None;
      actionMean, actionSigma, nextCriticObservations := None, None, None;
    }

    /**
     * The fields `AddTransitions` copies are all set, one entry per environment; the critic
     * observations are only read when the buffer keeps privileged observations.
     */
    predicate Filled(n: nat, privileged: bool)
      reads this
    {
      && observations.Some? && |observations.value| == n
      && actions.Some? && |actions.value| == n
      && rewards.Some? && |rewards.value| == n
      && dones.Some? && |dones.value| == n
      && values.Some? && |values.value| == n
      && actionsLogProb.Some? && |actionsLogProb.value| == n
      && actionMean.Some? && |actionMean.value| == n
      && actionSigma.Some? && |actionSigma.value| == n
      && (privileged ==>
            && criticObservations.Some? && |criticObservations.value| == n
            && nextCriticObservations.Some? && |nextCriticObservations.value| == n)
    }

    /**
     * The row `AddTransitions` writes: every field copied from the transition, except the two
     * privileged buffers, which keep their previous row when the storage has none.
     */
    function Record(previous: StepRecord, n: nat, privileged: bool): (r: StepRecord)
      reads this
      requires Filled(n, privileged) && Shaped(previous, n)
      ensures Shaped(r, n)
      ensures r.observations == observations.value && r.rewards == rewards.value && r.dones == dones.value
      ensures r.values == values.value && r.actions == actions.value
      ensures r.actionsLogProb == actionsLogProb.value && r.mu == actionMean.value && r.sigma == actionSigma.value
      ensures privileged ==>
        r.privilegedObservations == criticObservations.value && r.nextPrivilegedObservations == nextCriticObservations.value
      ensures !privileged ==>
        && r.privilegedObservations == previous.privilegedObservations
        && r.nextPrivilegedObservations == previous.nextPrivilegedObservations
    {
      StepRecord(
        observations.value,
        if privileged then criticObservations.value else previous.privilegedObservations,
        if privileged then nextCriticObservations.value else previous.nextPrivilegedObservations,
        actions.value, rewards.value, dones.value, values.value, actionsLogProb.value,
        actionMean.value, actionSigma.value)
    }
  }

  // ---------------------------------------------------------------------------------------
  // Generalised advantage estimation, as functions of the rows

  /** `1.0 - dones.float()`. */
  function Mask(done: bool): (r: real)
    ensures r == 0.0 <==> done
    ensures r == 1.0 <==> !done
  {
    if done then 0.0 else 1.0
  }

  /** The value the estimate of row `t` bootstraps from: the next row's, or `lastValues` at the end. */
  function NextValue(rows: seq<StepRecord>, lastValues: seq<real>, t: nat, e: nat): real
    requires Rect(rows, |lastValues|) && t < |rows| && e < |lastValues|
  {
    if t == |rows| - 1 then lastValues[e] else rows[t + 1].values[e]
  }

  /** `delta = reward + not_terminal * gamma * next_value - value`. */
  function TdError(reward: real, notTerminal: real, gamma: real, nextValue: real, value: real): real
  {
    reward + notTerminal * gamma * nextValue - value
  }

  /** `advantage = delta + not_terminal * gamma * lam * advantage`. */
  function GaeStep(delta: real, notTerminal: real, gamma: real, lam: real, nextAdvantage: real): real
  {
    delta + notTerminal * gamma * lam * nextAdvantage
  }

  /** The temporal-difference error of row `t`, environment `e`. */
  function Delta(rows: seq<StepRecord>, lastValues: seq<real>, gamma: real, t: nat, e: nat): real
    requires Rect(rows, |lastValues|) && t < |rows| && e < |lastValues|
  {
    TdError(rows[t].rewards[e], Mask(rows[t].dones[e]), gamma, NextValue(rows, lastValues, t, e), rows[t].values[e])
  }

  /** The factor by which the estimate of row `t + 1` enters that of row `t`. */
  function Decay(rows: seq<StepRecord>, n: nat, gamma: real, lam: real, t: nat, e: nat): real
    requires Rect(rows, n) && t < |rows| && e < n
  {
    Mask(rows[t].dones[e]) * gamma * lam
  }

  /** The advantage estimate of row `t`, by the backward recursion of `compute_returns`. */
  function Advantage(rows: seq<StepRecord>, lastValues: seq<real>, gamma: real, lam: real, t: nat, e: nat): real
    requires Rect(rows, |lastValues|) && t < |rows| && e < |lastValues|
    decreases |rows| - t
  {
    GaeStep(Delta(rows, lastValues, gamma, t, e), Mask(rows[t].dones[e]), gamma, lam,
            if t == |rows| - 1 then 0.0 else Advantage(rows, lastValues, gamma, lam, t + 1, e))
  }

  /** One step of the backward recursion, from the estimate of row `t + 1` to that of row `t`. */
  lemma AdvantageStep(rows: seq<StepRecord>, lastValues: seq<real>, gamma: real, lam: real, t: nat, e: nat, next: real)
    requires Rect(rows, |lastValues|) && t < |rows| && e < |lastValues|
    requires next == if t == |rows| - 1 then 0.0 else Advantage(rows, lastValues, gamma, lam, t + 1, e)
    ensures Advantage(rows, lastValues, gamma, lam, t, e)
         == GaeStep(TdError(rows[t].rewards[e], Mask(rows[t].dones[e]), gamma,
                            (if t == |rows| - 1 then lastValues else rows[t + 1].values)[e], rows[t].values[e]),
                    Mask(rows[t].dones[e]), gamma, lam, next)
  {
  }

  /** Row `t` of the returns: advantage plus value. */
  function ReturnsRow(rows: seq<StepRecord>, lastValues: seq<real>, gamma: real, lam: real, t: nat): (r: seq<real>)
    requires Rect(rows, |lastValues|) && t < |rows|
    ensures |r| == |lastValues|
  {
    seq(|lastValues|, e requires 0 <= e < |lastValues| =>
      Advantage(rows, lastValues, gamma, lam, t, e) + rows[t].values[e])
  }

  function Returns(rows: seq<StepRecord>, lastValues: seq<real>, gamma: real, lam: real): (r: seq<seq<real>>)
    requires Rect(rows, |lastValues|)
    ensures |r| == |rows|
  {
    seq(|rows|, t requires 0 <= t < |rows| => ReturnsRow(rows, lastValues, gamma, lam, t))
  }

  /** `returns - values`, before normalisation. */
  function RawAdvantages(returnValues: seq<seq<real>>, rows: seq<StepRecord>, n: nat): (r: seq<seq<real>>)
    requires |returnValues| == |rows| && Rect(rows, n)
    requires forall t :: 0 <= t < |returnValues| ==> |returnValues[t]| == n
    ensures |r| == |rows| && forall t :: 0 <= t < |r| ==> |r[t]| == n
  {
    seq(|rows|, t requires 0 <= t < |rows| => seq(n, e requires 0 <= e < n => returnValues[t][e] - rows[t].values[e]))
  }

  /** The `1e-8` added to the standard deviation before dividing. */
  const AdvantageEpsilon: real := 0.00000001

  /**
   * The advantages after `compute_returns`: the raw advantages minus their mean, over their
   * standard deviation plus `AdvantageEpsilon`. The square root is a parameter.
   */
  function NormalizedAdvantages(raw: seq<seq<real>>, sqrt: real -> real): seq<seq<real>>
    requires forall x :: 0.0 <= x ==> 0.0 <= sqrt(x)
  {
    Normalized2(raw, sqrt(SampleVariance(Flatten(raw))) + AdvantageEpsilon)
  }

  // Closed form of the recursion. Along one environment the recursion only sees the column of
  // TD errors and the column of decays; over those columns, the estimate of row `t` is the sum of
  // the later TD errors, each discounted by the product of the decays in between.

  /** The TD errors of environment `e`, row by row. */
  function Deltas(rows: seq<StepRecord>, lastValues: seq<real>, gamma: real, e: nat): (r: seq<real>)
    requires Rect(rows, |lastValues|) && e < |lastValues|
    ensures |r| == |rows|
  {
    seq(|rows|, t requires 0 <= t < |rows| => Delta(rows, lastValues, gamma, t, e))
  }

  /** The decays of environment `e`, row by row. */
  function Decays(rows: seq<StepRecord>, n: nat, gamma: real, lam: real, e: nat): (r: seq<real>)
    requires Rect(rows, n) && e < n
    ensures |r| == |rows|
  {
    seq(|rows|, t requires 0 <= t < |rows| => Decay(rows, n, gamma, lam, t, e))
  }

  /** The backward recursion over the two columns. */
  function Backward(deltas: seq<real>, decays: seq<real>, t: nat): real
    requires |deltas| == |decays| && t < |deltas|
    decreases |deltas| - t
  {
    deltas[t] + decays[t] * (if t == |deltas| - 1 then 0.0 else Backward(deltas, decays, t + 1))
  }

  /** The product of the decays of rows `t .. k - 1`. */
  function Weight(decays: seq<real>, t: nat, k: nat): real
    requires t <= k <= |decays|
    decreases k - t
  {
    if k == t then 1.0 else Weight(decays, t, k - 1) * decays[k - 1]
  }

  /** The TD errors of rows `t .. k - 1`, each weighted by the decays before it. */
  function DiscountedSum(deltas: seq<real>, decays: seq<real>, t: nat, k: nat): real
    requires |deltas| == |decays| && t <= k <= |deltas|
    decreases k - t
  {
    if k == t then 0.0 else DiscountedSum(deltas, decays, t, k - 1) + Weight(decays, t, k - 1) * deltas[k - 1]
  }

  lemma MulAssoc(a: real, b: real, c: real, x: real)
    requires x == b * c
    ensures a * x == (a * b) * c
  {
  }

  /** One step of the peeling induction, over plain reals. */
  lemma PeelStep(sum: real, prefix: real, delta0: real, decay0: real, tailPrefix: real, tail: real,
                 w: real, tailW: real, deltaLast: real)
    requires sum == prefix + w * deltaLast
    requires prefix == delta0 + decay0 * tailPrefix
    requires w == decay0 * tailW
    requires tail == tailPrefix + tailW * deltaLast
    ensures sum == delta0 + decay0 * tail
  {
  }

  lemma {:induction false} WeightPeel(decays: seq<real>, t: nat, k: nat)
    requires t < k <= |decays|
    ensures Weight(decays, t, k) == decays[t] * Weight(decays, t + 1, k)
    decreases k - t
  {
    if k > t + 1 {
      WeightPeel(decays, t, k - 1);
      MulAssoc(decays[t], Weight(decays, t + 1, k - 1), decays[k - 1], Weight(decays, t + 1, k));
    }
  }

  lemma {:induction false} DiscountedSumPeel(deltas: seq<real>, decays: seq<real>, t: nat, k: nat)
    requires |deltas| == |decays| && t < k <= |deltas|
    ensures DiscountedSum(deltas, decays, t, k) == deltas[t] + decays[t] * DiscountedSum(deltas, decays, t + 1, k)
    decreases k - t
  {
    if k > t + 1 {
      DiscountedSumPeel(deltas, decays, t, k - 1);
      WeightPeel(decays, t, k - 1);
      PeelStep(DiscountedSum(deltas, decays, t, k), DiscountedSum(deltas, decays, t, k - 1),
               deltas[t], decays[t],
               DiscountedSum(deltas, decays, t + 1, k - 1), DiscountedSum(deltas, decays, t + 1, k),
               Weight(decays, t, k - 1), Weight(decays, t + 1, k - 1), deltas[k - 1]);
    }
  }

  lemma {:induction false} BackwardIsDiscountedSum(deltas: seq<real>, decays: seq<real>, t: nat)
    requires |deltas| == |decays| && t < |deltas|
    ensures Backward(deltas, decays, t) == DiscountedSum(deltas, decays, t, |deltas|)
    decreases |deltas| - t
  {
    DiscountedSumPeel(deltas, decays, t, |deltas|);
    if t < |deltas| - 1 {
      BackwardIsDiscountedSum(deltas, decays, t + 1);
    }
  }

  lemma {:induction false} AdvantageIsBackward(rows: seq<StepRecord>, lastValues: seq<real>, gamma: real, lam: real, t: nat, e: nat)
    requires Rect(rows, |lastValues|) && t < |rows| && e < |lastValues|
    ensures Advantage(rows, lastValues, gamma, lam, t, e)
         == Backward(Deltas(rows, lastValues, gamma, e), Decays(rows, |lastValues|, gamma, lam, e), t)
    decreases |rows| - t
  {
    if t < |rows| - 1 {
      AdvantageIsBackward(rows, lastValues, gamma, lam, t + 1, e);
    }
  }

  /**
   * The backward recursion computes the truncated GAE sum: the advantage of row `t` is the sum
   * over the later rows `k` of their TD error times the product of `gamma * lam` and the
   * not-done masks of rows `t .. k - 1`. A done row therefore cuts off everything after it.
   */
  lemma AdvantageIsDiscountedSum(rows: seq<StepRecord>, lastValues: seq<real>, gamma: real, lam: real, t: nat, e: nat)
    requires Rect(rows, |lastValues|) && t < |rows| && e < |lastValues|
    ensures Advantage(rows, lastValues, gamma, lam, t, e)
         == DiscountedSum(Deltas(rows, lastValues, gamma, e), Decays(rows, |lastValues|, gamma, lam, e), t, |rows|)
  {
    AdvantageIsBackward(rows, lastValues, gamma, lam, t, e);
    BackwardIsDiscountedSum(Deltas(rows, lastValues, gamma, e), Decays(rows, |lastValues|, gamma, lam, e), t);
  }

  /** A done row cuts the discounted sum: every later TD error has weight zero. */
  lemma {:induction false} WeightAfterDone(decays: seq<real>, t: nat, j: nat, k: nat)
    requires t <= j < k <= |decays| && decays[j] == 0.0
    ensures Weight(decays, t, k) == 0.0
    decreases k - j
  {
    if k - 1 > j {
      WeightAfterDone(decays, t, j, k - 1);
    }
  }

  /** A done row's return is its own reward: nothing after it, not even the bootstrap, counts. */
  lemma DoneReturnIsReward(rows: seq<StepRecord>, lastValues: seq<real>, gamma: real, lam: real, t: nat, e: nat)
    requires Rect(rows, |lastValues|) && t < |rows| && e < |lastValues| && rows[t].dones[e]
    ensures Returns(rows, lastValues, gamma, lam)[t][e] == rows[t].rewards[e]
  {
  }

  /** The last row bootstraps from `lastValues`: with no done, its return is `r + gamma * v_last`. */
  lemma LastReturnBootstraps(rows: seq<StepRecord>, lastValues: seq<real>, gamma: real, lam: real, e: nat)
    requires Rect(rows, |lastValues|) && |rows| > 0 && e < |lastValues| && !rows[|rows| - 1].dones[e]
    ensures Returns(rows, lastValues, gamma, lam)[|rows| - 1][e] == rows[|rows| - 1].rewards[e] + gamma * lastValues[e]
  {
  }

  // ---------------------------------------------------------------------------------------
  // Mini-batches

  /** One sample of the flattened buffer, every field the mini-batch generator yields. */
  datatype Sample = Sample(
    observation: seq<real>,
    criticObservation: seq<real>,
    action: seq<real>,
    nextCriticObservation: seq<real>,
    targetValue: real,
    advantage: real,
    returnValue: real,
    oldActionsLogProb: real,
    oldMu: seq<real>,
    oldSigma: seq<real>)

  /**
   * Row `t` of the buffer as samples. Without privileged buffers both critic fields are the
   * observation itself (the same tensor, not the next observation).
   */
  function SampleRow(r: StepRecord, returnValues: seq<real>, advantages: seq<real>, n: nat, privileged: bool): (s: seq<Sample>)
    requires Shaped(r, n) && |returnValues| == n && |advantages| == n
    ensures |s| == n
  {
    seq(n, e requires 0 <= e < n =>
      Sample(r.observations[e],
             if privileged then r.privilegedObservations[e] else r.observations[e],
             r.actions[e],
             if privileged then r.nextPrivilegedObservations[e] else r.observations[e],
             r.values[e], advantages[e], returnValues[e], r.actionsLogProb[e], r.mu[e], r.sigma[e]))
  }

  /** The buffer as a [T, N] tensor of samples. */
  function SampleRows(rows: seq<StepRecord>, returnValues: seq<seq<real>>, advantages: seq<seq<real>>, n: nat, privileged: bool)
    : (m: seq<seq<Sample>>)
    requires Rect(rows, n) && |returnValues| == |rows| && |advantages| == |rows|
    requires forall t :: 0 <= t < |rows| ==> |returnValues[t]| == n && |advantages[t]| == n
    ensures |m| == |rows|
    ensures forall t :: 0 <= t < |rows| ==> m[t] == SampleRow(rows[t], returnValues[t], advantages[t], n, privileged)
  {
    seq(|rows|, t requires 0 <= t < |rows| => SampleRow(rows[t], returnValues[t], advantages[t], n, privileged))
  }

  lemma SamplesAt(rows: seq<StepRecord>, returnValues: seq<seq<real>>, advantages: seq<seq<real>>, n: nat, privileged: bool)
    requires Rect(rows, n) && |returnValues| == |rows| && |advantages| == |rows|
    requires forall t :: 0 <= t < |rows| ==> |returnValues[t]| == n && |advantages[t]| == n
    ensures forall t, e :: 0 <= t < |rows| && 0 <= e < n ==>
      && RowMajor(t, e, n) < |Flatten(SampleRows(rows, returnValues, advantages, n, privileged))|
      && Flatten(SampleRows(rows, returnValues, advantages, n, privileged))[RowMajor(t, e, n)]
         == SampleRow(rows[t], returnValues[t], advantages[t], n, privileged)[e]
  {
    var m := SampleRows(rows, returnValues, advantages, n, privileged);
    forall t, e | 0 <= t < |rows| && 0 <= e < n
      ensures RowMajor(t, e, n) < |Flatten(m)|
      ensures Flatten(m)[RowMajor(t, e, n)] == SampleRow(rows[t], returnValues[t], advantages[t], n, privileged)[e]
    {
      FlattenIndex(m, n, t, e);
    }
  }

  /**
   * Every field flattened over its first two dimensions (`flatten(0, 1)`): sample `t * N + e` is
   * environment `e` of row `t`, which is what the permuted indices pick from.
   */
  function Samples(rows: seq<StepRecord>, returnValues: seq<seq<real>>, advantages: seq<seq<real>>, n: nat, privileged: bool): (s: seq<Sample>)
    requires Rect(rows, n) && |returnValues| == |rows| && |advantages| == |rows|
    requires forall t :: 0 <= t < |rows| ==> |returnValues[t]| == n && |advantages[t]| == n
    ensures |s| == |rows| * n
    ensures forall t, e :: 0 <= t < |rows| && 0 <= e < n ==>
      RowMajor(t, e, n) < |s| && s[RowMajor(t, e, n)] == SampleRow(rows[t], returnValues[t], advantages[t], n, privileged)[e]
  {
    var m := SampleRows(rows, returnValues, advantages, n, privileged);
    FlattenLength(m, n);
    SamplesAt(rows, returnValues, advantages, n, privileged);
    Flatten(m)
  }

  /** Without privileged buffers, every sample's critic and next-critic observations are its observation. */
  lemma CriticFallsBackToObservation(rows: seq<StepRecord>, returnValues: seq<seq<real>>, advantages: seq<seq<real>>, n: nat)
    requires Rect(rows, n) && |returnValues| == |rows| && |advantages| == |rows|
    requires forall t :: 0 <= t < |rows| ==> |returnValues[t]| == n && |advantages[t]| == n
    ensures forall x :: x in Samples(rows, returnValues, advantages, n, false) ==>
      x.criticObservation == x.observation && x.nextCriticObservation == x.observation
  {
    var m := SampleRows(rows, returnValues, advantages, n, false);
    assert Samples(rows, returnValues, advantages, n, false) == Flatten(m);
    forall x: Sample | x in Flatten(m)
      ensures x.criticObservation == x.observation && x.nextCriticObservation == x.observation
    {
      FlattenMember(m, x);
      var t :| 0 <= t < |m| && x in m[t];
      var e :| 0 <= e < |m[t]| && m[t][e] == x;
    }
  }

  // ---------------------------------------------------------------------------------------
  // Episode statistics

  /** `dones.permute(1, 0, 2).reshape(-1)`: environment-major, each environment's rows in order. */
  function EnvMajorDones(rows: seq<StepRecord>, n: nat): seq<bool>
    requires Rect(rows, n)
  {
    Flatten(seq(n, e requires 0 <= e < n => seq(|rows|, t requires 0 <= t < |rows| => rows[t].dones[e])))
  }

  /** `nonzero()`: the positions of the done flags, in increasing order. */
  function DoneIndices(f: seq<bool>): (r: seq<int>)
    ensures forall i :: 0 <= i < |r| ==> 0 <= r[i] < |f| && f[r[i]]
    ensures forall i :: 0 <= i < |f| && f[i] ==> i in r
  {
    if |f| == 0 then []
    else DoneIndices(f[..|f| - 1]) + (if f[|f| - 1] then [|f| - 1] else [])
  }

  /** Consecutive differences. */
  function Diffs(s: seq<int>): (r: seq<int>)
    requires |s| >= 1
    ensures |r| == |s| - 1
  {
    seq(|s| - 1, i requires 0 <= i < |s| - 1 => s[i + 1] - s[i])
  }

  /** The trajectory lengths: differences of the done positions, with -1 in front. */
  function TrajectoryLengths(f: seq<bool>): seq<int>
  {
    Diffs([-1] + DoneIndices(f))
  }

  function AsReals(s: seq<int>): (r: seq<real>)
    ensures |r| == |s|
  {
    seq(|s|, i requires 0 <= i < |s| => s[i] as real)
  }

  lemma {:induction false} DoneIndicesIncreasing(f: seq<bool>)
    ensures forall i, j :: 0 <= i < j < |DoneIndices(f)| ==> DoneIndices(f)[i] < DoneIndices(f)[j]
    ensures |f| > 0 && f[|f| - 1] ==> |DoneIndices(f)| > 0 && DoneIndices(f)[|DoneIndices(f)| - 1] == |f| - 1
  {
    if |f| > 0 {
      DoneIndicesIncreasing(f[..|f| - 1]);
    }
  }

  lemma {:induction false} DiffsTelescope(s: seq<int>)
    requires |s| >= 1
    ensures SumInt(Diffs(s)) == s[|s| - 1] - s[0]
  {
    if |s| > 1 {
      assert Diffs(s)[1..] == Diffs(s[1..]);
      DiffsTelescope(s[1..]);
    }
  }

  /**
   * When the last flag is set, every position belongs to exactly one trajectory: each length is
   * at least one and the lengths add up to the number of flags.
   */
  lemma TrajectoryLengthsPartition(f: seq<bool>)
    requires |f| > 0 && f[|f| - 1]
    ensures |TrajectoryLengths(f)| >= 1
    ensures forall i :: 0 <= i < |TrajectoryLengths(f)| ==> TrajectoryLengths(f)[i] >= 1
    ensures SumInt(TrajectoryLengths(f)) == |f|
  {
    var s := [-1] + DoneIndices(f);
    DoneIndicesIncreasing(f);
    DiffsTelescope(s);
  }

  /** Row `t` of a [T, N] tensor with every entry of the last row set. */
  lemma LastFlagSet(rows: seq<StepRecord>, n: nat)
    requires Rect(rows, n) && |rows| > 0 && n > 0
    requires rows[|rows| - 1].dones == seq(n, _ => true)
    ensures |EnvMajorDones(rows, n)| == n * |rows|
    ensures EnvMajorDones(rows, n)[n * |rows| - 1]
  {
    var m := seq(n, e requires 0 <= e < n => seq(|rows|, t requires 0 <= t < |rows| => rows[t].dones[e]));
    FlattenLength(m, |rows|);
    FlattenLast(m, |rows|);
  }

  lemma {:induction false} FlattenLast<X>(m: seq<seq<X>>, w: nat)
    requires |m| > 0 && w > 0 && forall t :: 0 <= t < |m| ==> |m[t]| == w
    ensures |Flatten(m)| == |m| * w && Flatten(m)[|m| * w - 1] == m[|m| - 1][w - 1]
  {
    FlattenLength(m, w);
    if |m| > 1 {
      FlattenLast(m[1..], w);
      RowsTimesWidth(|m|, w);
    }
  }

  // ---------------------------------------------------------------------------------------
  // Mini-batch schedule

  /** `indices` is a permutation of `0 .. n - 1`. */
  predicate IsPermutation(indices: seq<nat>, n: nat)
  {
    && |indices| == n
    && (forall i :: 0 <= i < |indices| ==> indices[i] < n)
    && (forall i, j :: 0 <= i < j < |indices| ==> indices[i] != indices[j])
  }

  /** Mini-batch `i` of an epoch: the slice `indices[i * size .. (i + 1) * size]`. */
  function Chunk(indices: seq<nat>, i: nat, size: nat): seq<nat>
    requires (i + 1) * size <= |indices|
  {
    indices[i * size .. (i + 1) * size]
  }

  lemma ChunkBounds(count: nat, size: nat, i: nat)
    requires i < count
    ensures i * size + size == (i + 1) * size <= count * size
  {
  }

  function Gather(samples: seq<Sample>, idx: seq<nat>): (r: seq<Sample>)
    requires forall j :: 0 <= j < |idx| ==> idx[j] < |samples|
    ensures |r| == |idx| && forall j :: 0 <= j < |idx| ==> r[j] == samples[idx[j]]
  {
    seq(|idx|, j requires 0 <= j < |idx| => samples[idx[j]])
  }

  /** One epoch: `count` mini-batches of `size` samples, read through consecutive slices of `indices`. */
  function OneEpoch(samples: seq<Sample>, indices: seq<nat>, count: nat, size: nat): (r: seq<seq<Sample>>)
    requires |indices| == count * size
    requires forall j :: 0 <= j < |indices| ==> indices[j] < |samples|
    ensures |r| == count
  {
    var chunks := Chunks(indices, count, size);
    seq(count, i requires 0 <= i < count => ChunkInRange(indices, count, size, i, |samples|); Gather(samples, chunks[i]))
  }

  function Repeat<X>(s: seq<X>, k: nat): (r: seq<X>)
  {
    if k == 0 then [] else Repeat(s, k - 1) + s
  }

  lemma {:induction false} RepeatIndex<X>(s: seq<X>, k: nat, epoch: nat, i: nat)
    requires epoch < k && i < |s|
    ensures |Repeat(s, k)| == k * |s|
    ensures epoch * |s| + i < k * |s| && Repeat(s, k)[epoch * |s| + i] == s[i]
  {
    RepeatLength(s, k);
    if epoch < k - 1 {
      RepeatIndex(s, k - 1, epoch, i);
      RowsTimesWidth(k, |s|);
    } else {
      RowsTimesWidth(k, |s|);
    }
  }

  lemma {:induction false} RepeatLength<X>(s: seq<X>, k: nat)
    ensures |Repeat(s, k)| == k * |s|
  {
    if k > 0 {
      RepeatLength(s, k - 1);
      RowsTimesWidth(k, |s|);
    }
  }

  /** The mini-batches of one epoch, as index slices. */
  function Chunks(indices: seq<nat>, count: nat, size: nat): (r: seq<seq<nat>>)
    requires |indices| == count * size
    ensures |r| == count
  {
    seq(count, i requires 0 <= i < count => ChunkBounds(count, size, i); Chunk(indices, i, size))
  }

  /** A mini-batch's indices are among the permutation's, so they stay below any bound those obey. */
  lemma ChunkInRange(indices: seq<nat>, count: nat, size: nat, i: nat, bound: nat)
    requires |indices| == count * size && i < count
    requires forall j :: 0 <= j < |indices| ==> indices[j] < bound
    ensures forall j :: 0 <= j < |Chunks(indices, count, size)[i]| ==> Chunks(indices, count, size)[i][j] < bound
  {
    ChunkBounds(count, size, i);
    var chunk := Chunks(indices, count, size)[i];
    assert chunk == indices[i * size .. (i + 1) * size];
    forall j | 0 <= j < |chunk|
      ensures chunk[j] < bound
    {
      assert chunk[j] == indices[i * size + j];
    }
  }

  lemma ChunkShift(indices: seq<nat>, count: nat, size: nat, i: nat)
    requires |indices| == count * size && 0 < i < count
    ensures (i - 1) * size + size == i * size && (i + 1) * size <= |indices|
    ensures size <= |indices| && Chunk(indices, i, size) == indices[size..][(i - 1) * size .. i * size]
  {
    ChunkBounds(count, size, i);
    RowsTimesWidth(i, size);
  }

  /**
   * Within an epoch the mini-batches, concatenated, are the permutation itself: they are
   * disjoint and together cover every sample index once.
   */
  lemma {:induction false} ChunksCover(indices: seq<nat>, count: nat, size: nat)
    requires |indices| == count * size
    ensures Flatten(Chunks(indices, count, size)) == indices
  {
    if count > 0 {
      RowsTimesWidth(count, size);
      var rest := indices[size..];
      assert |rest| == (count - 1) * size;
      forall i | 0 < i < count
        ensures Chunks(indices, count, size)[i] == Chunks(rest, count - 1, size)[i - 1]
      {
        ChunkShift(indices, count, size, i);
      }
      assert Chunks(indices, count, size)[1..] == Chunks(rest, count - 1, size);
      ChunksCover(rest, count - 1, size);
    }
  }

  /** Gathering along two index lists in turn is gathering along their concatenation. */
  lemma GatherAppend(samples: seq<Sample>, a: seq<nat>, b: seq<nat>)
    requires forall j :: 0 <= j < |a| ==> a[j] < |samples|
    requires forall j :: 0 <= j < |b| ==> b[j] < |samples|
    ensures forall j :: 0 <= j < |a + b| ==> (a + b)[j] < |samples|
    ensures Gather(samples, a + b) == Gather(samples, a) + Gather(samples, b)
  {
    assert forall j :: 0 <= j < |a + b| ==> (a + b)[j] == if j < |a| then a[j] else b[j - |a|];
  }

  /** Gathering each part and concatenating the results is gathering along the concatenated parts. */
  lemma {:induction false} GatherFlatten(samples: seq<Sample>, parts: seq<seq<nat>>, batches: seq<seq<Sample>>)
    requires |batches| == |parts|
    requires forall i :: 0 <= i < |parts| ==> forall j :: 0 <= j < |parts[i]| ==> parts[i][j] < |samples|
    requires forall i :: 0 <= i < |parts| ==> batches[i] == Gather(samples, parts[i])
    ensures forall j :: 0 <= j < |Flatten<nat>(parts)| ==> Flatten<nat>(parts)[j] < |samples|
    ensures Flatten(batches) == Gather(samples, Flatten<nat>(parts))
  {
    if |parts| > 0 {
      GatherFlatten(samples, parts[1..], batches[1..]);
      GatherAppend(samples, parts[0], Flatten<nat>(parts[1..]));
    }
  }

  /** Distinct entries drawn from `S` number at most `|S|`. */
  lemma {:induction false} Pigeonhole(s: seq<nat>, S: set<nat>)
    requires forall i :: 0 <= i < |s| ==> s[i] in S
    requires forall i, j :: 0 <= i < j < |s| ==> s[i] != s[j]
    ensures |s| <= |S|
  {
    if |s| > 0 {
      forall i | 0 <= i < |s[1..]|
        ensures s[1..][i] in S - {s[0]}
      {
        assert s[1..][i] == s[i + 1];
      }
      Pigeonhole(s[1..], S - {s[0]});
    }
  }

  /** The indices `0 .. m - 1`. */
  function Below(m: nat): (r: set<nat>)
    ensures |r| == m
    ensures forall k: nat :: k in r <==> k < m
  {
    if m == 0 then {} else Below(m - 1) + {m - 1}
  }

  /** A permutation of `0 .. m - 1` holds every index below `m`. */
  lemma PermutationHits(idx: seq<nat>, m: nat, k: nat)
    requires IsPermutation(idx, m) && k < m
    ensures k in idx
  {
    if k !in idx {
      Pigeonhole(idx, Below(m) - {k});
      assert false;
    }
  }

  /** `idx` without its entry at position `p`. */
  function Without(idx: seq<nat>, p: nat): (r: seq<nat>)
    requires p < |idx|
    ensures |r| == |idx| - 1
    ensures forall j :: 0 <= j < |r| ==> r[j] == idx[if j < p then j else j + 1]
  {
    idx[..p] + idx[p + 1..]
  }

  /** Removing the entry `m - 1` from a permutation of `0 .. m - 1` leaves one of `0 .. m - 2`. */
  lemma RemoveLast(idx: seq<nat>, m: nat, p: nat)
    requires IsPermutation(idx, m) && p < |idx| && idx[p] == m - 1
    ensures IsPermutation(Without(idx, p), m - 1)
  {
  }

  /** Gathering with one more index in the middle reads one more sample. */
  lemma GatherSplit(samples: seq<Sample>, before: seq<nat>, k: nat, after: seq<nat>)
    requires forall j :: 0 <= j < |before| ==> before[j] < |samples|
    requires forall j :: 0 <= j < |after| ==> after[j] < |samples|
    requires k < |samples|
    ensures forall j :: 0 <= j < |before + [k] + after| ==> (before + [k] + after)[j] < |samples|
    ensures forall j :: 0 <= j < |before + after| ==> (before + after)[j] < |samples|
    ensures multiset(Gather(samples, before + [k] + after)) == multiset(Gather(samples, before + after)) + multiset{samples[k]}
  {
    GatherAppend(samples, before, after);
    GatherAppend(samples, before, [k]);
    GatherAppend(samples, before + [k], after);
    assert Gather(samples, [k]) == [samples[k]];
    MultisetSplice(Gather(samples, before + [k] + after), Gather(samples, before), samples[k], Gather(samples, after),
                   Gather(samples, before + after), Gather(samples, before + after));
  }

  /** Gathering without the index at position `p` reads one sample fewer: the one it points to. */
  lemma GatherRemove(samples: seq<Sample>, idx: seq<nat>, p: nat)
    requires forall j :: 0 <= j < |idx| ==> idx[j] < |samples|
    requires p < |idx|
    ensures multiset(Gather(samples, idx)) == multiset(Gather(samples, Without(idx, p))) + multiset{samples[idx[p]]}
  {
    assert idx == idx[..p] + [idx[p]] + idx[p + 1..];
    GatherSplit(samples, idx[..p], idx[p], idx[p + 1..]);
  }

  lemma MultisetSplice<X>(whole: seq<X>, a: seq<X>, x: X, b: seq<X>, rest: seq<X>, prefix: seq<X>)
    requires whole == a + [x] + b && rest == a + b && multiset(rest) == multiset(prefix)
    ensures multiset(whole) == multiset(prefix) + multiset{x}
  {
  }

  /**
   * Gathering along a permutation of the first `m` indices reads each of the first `m` samples
   * exactly once.
   */
  lemma {:induction false} GatherPermutation(samples: seq<Sample>, idx: seq<nat>, m: nat)
    requires IsPermutation(idx, m) && m <= |samples|
    ensures multiset(Gather(samples, idx)) == multiset(samples[..m])
    decreases m
  {
    if m > 0 {
      var p := LastPosition(idx, m);
      var rest := Without(idx, p);
      GatherPermutation(samples, rest, m - 1);
      GatherRemove(samples, idx, p);
      PrefixSnoc(samples, m);
    }
  }

  /** Where a permutation of `0 .. m - 1` holds `m - 1`; the rest is a permutation of `0 .. m - 2`. */
  lemma LastPosition(idx: seq<nat>, m: nat) returns (p: nat)
    requires IsPermutation(idx, m) && m > 0
    ensures p < |idx| && idx[p] == m - 1 && IsPermutation(Without(idx, p), m - 1)
  {
    PermutationHits(idx, m, m - 1);
    p :| 0 <= p < |idx| && idx[p] == m - 1;
    RemoveLast(idx, m, p);
  }

  /** The first `m` samples are the first `m - 1` and sample `m - 1`. */
  lemma PrefixSnoc(samples: seq<Sample>, m: nat)
    requires 0 < m <= |samples|
    ensures multiset(samples[..m]) == multiset(samples[..m - 1]) + multiset{samples[m - 1]}
  {
    assert samples[..m] == samples[..m - 1] + [samples[m - 1]];
  }

  /**
   * One epoch of mini-batches, put back together, reads the samples along the whole permutation:
   * each of the first `count * size` samples exactly once, and no other.
   */
  lemma EpochIsPermutation(samples: seq<Sample>, indices: seq<nat>, count: nat, size: nat)
    requires count * size <= |samples| && IsPermutation(indices, count * size)
    ensures Flatten(OneEpoch(samples, indices, count, size)) == Gather(samples, indices)
    ensures multiset(Flatten(OneEpoch(samples, indices, count, size))) == multiset(samples[..count * size])
  {
    var chunks := Chunks(indices, count, size);
    ChunksCover(indices, count, size);
    forall i | 0 <= i < count
      ensures forall j :: 0 <= j < |chunks[i]| ==> chunks[i][j] < |samples|
    {
      ChunkInRange(indices, count, size, i, |samples|);
    }
    GatherFlatten(samples, chunks, OneEpoch(samples, indices, count, size));
    GatherPermutation(samples, indices, count * size);
  }

  // ---------------------------------------------------------------------------------------
  // The storage

  function RewardRows(rows: seq<StepRecord>): (r: seq<seq<real>>)
    ensures |r| == |rows|
  {
    seq(|rows|, t requires 0 <= t < |rows| => rows[t].rewards)
  }

  lemma DivMulLe(x: nat, m: nat)
    requires m > 0
    ensures m * (x / m) <= x
  {
  }

  lemma {:induction false} SumAsReals(s: seq<int>)
    ensures Sum(AsReals(s)) == SumInt(s) as real
  {
    if |s| > 0 {
      assert AsReals(s)[1..] == AsReals(s[1..]);
      SumAsReals(s[1..]);
    }
  }

  lemma {:induction false} SumAtLeastCount(s: seq<int>)
    requires forall i :: 0 <= i < |s| ==> s[i] >= 1
    ensures SumInt(s) >= |s|
  {
    if |s| > 0 {
      SumAtLeastCount(s[1..]);
    }
  }

  lemma RatioAtLeastOne(a: real, b: real)
    requires 0.0 < b <= a
    ensures a / b >= 1.0
  {
  }

  /**
   * The mean trajectory length once the last row is marked done: the number of samples over
   * the number of trajectories, never below one.
   */
  lemma MeanTrajectoryLength(rows: seq<StepRecord>, n: nat)
    requires Rect(rows, n) && |rows| > 0 && n > 0
    requires rows[|rows| - 1].dones == seq(n, _ => true)
    ensures |TrajectoryLengths(EnvMajorDones(rows, n))| >= 1
    ensures Mean(AsReals(TrajectoryLengths(EnvMajorDones(rows, n))))
         == (n * |rows|) as real / |TrajectoryLengths(EnvMajorDones(rows, n))| as real
    ensures Mean(AsReals(TrajectoryLengths(EnvMajorDones(rows, n)))) >= 1.0
  {
    var f := EnvMajorDones(rows, n);
    LastFlagSet(rows, n);
    var lengths := TrajectoryLengths(f);
    TrajectoryLengthsPartition(f);
    SumAsReals(lengths);
    SumAtLeastCount(lengths);
    RatioAtLeastOne((n * |rows|) as real, |lengths| as real);
  }

  /** The rollout buffer: `rows[t]` holds row `t` of every per-field tensor. */
  class Storage {
    const numEnvs: nat
    const numTransitionsPerEnv: nat
    /** Whether the privileged-observation buffers exist. */
    const hasPrivileged: bool
    const rows: array<StepRecord>
    const returnValues: array<seq<real>>
    var advantages: seq<seq<real>>
    /** The next row `AddTransitions` writes. */
    var step: nat

    ghost predicate Valid()
      reads this, rows, returnValues
    {
      && rows.Length == numTransitionsPerEnv && returnValues.Length == numTransitionsPerEnv
      && step <= numTransitionsPerEnv
      && Rect(rows[..], numEnvs)
      && (forall t :: 0 <= t < returnValues.Length ==> |returnValues[t]| == numEnvs)
      && |advantages| == numTransitionsPerEnv
      && (forall t :: 0 <= t < |advantages| ==> |advantages[t]| == numEnvs)
    }

    /** Zero-filled buffers; the privileged ones have width 0 when `privilegedDim` is None. */
    constructor(numEnvs: nat, numTransitionsPerEnv: nat, obsDim: nat, privilegedDim: Option<nat>, actionDim: nat)
      ensures Valid() && fresh(rows) && fresh(returnValues)
      ensures this.numEnvs == numEnvs && this.numTransitionsPerEnv == numTransitionsPerEnv
      ensures hasPrivileged == privilegedDim.Some? && step == 0
      ensures forall t :: 0 <= t < numTransitionsPerEnv ==>
        rows[t] == ZeroRecord(numEnvs, obsDim, if privilegedDim.Some? then privilegedDim.value else 0, actionDim)
      ensures forall t :: 0 <= t < numTransitionsPerEnv ==> returnValues[t] == seq(numEnvs, _ => 0.0)
      ensures advantages == Zeros(numTransitionsPerEnv, numEnvs)
    {
      this.numEnvs := numEnvs;
      this.numTransitionsPerEnv := numTransitionsPerEnv;
      hasPrivileged := privilegedDim.Some?;
      var zero := ZeroRecord(numEnvs, obsDim, if privilegedDim.Some? then privilegedDim.value else 0, actionDim);
      rows := new StepRecord[numTransitionsPerEnv](_ => zero);
      returnValues := new seq<real>[numTransitionsPerEnv](_ => seq(numEnvs, _ => 0.0));
      advantages := Zeros(numTransitionsPerEnv, numEnvs);
      step := 0;
    }

    /**
     * Writes the transition into row `step` and advances `step`; a full buffer raises and
     * changes nothing.
     */
    method AddTransitions(transition: Transition) returns (outcome: Outcome<StorageError>)
      requires Valid()
      requires step < numTransitionsPerEnv ==> transition.Filled(numEnvs, hasPrivileged)
      modifies this`step, rows
      ensures Valid()
      ensures old(step) >= numTransitionsPerEnv ==>
        outcome == Fail(RolloutBufferOverflow) && step == old(step) && rows[..] == old(rows[..])
      ensures old(step) < numTransitionsPerEnv ==>
        && outcome == Pass && step == old(step) + 1
        && rows[..] == old(rows[..])[old(step) := transition.Record(old(rows[step]), numEnvs, hasPrivileged)]
    {
      if step >= numTransitionsPerEnv {
        return Fail(RolloutBufferOverflow);
      }
      assert Shaped(rows[..][step], numEnvs);
      rows[step] := transition.Record(rows[step], numEnvs, hasPrivileged);
      step := step + 1;
      outcome := Pass;
    }

    method Clear()
      requires Valid()
      modifies this`step
      ensures Valid() && step == 0
    {
      step := 0;
    }

    /**
     * `compute_returns`: the backward GAE pass writes each row's returns, its advantage estimate
     * plus its value; the advantages are then `returns - values`, normalised over the whole
     * buffer. Nothing but the rows and the arguments enters the result.
     */
    method ComputeReturns(lastValues: seq<real>, gamma: real, lam: real, sqrt: real -> real)
      requires Valid() && |lastValues| == numEnvs
      requires forall x :: 0.0 <= x ==> 0.0 <= sqrt(x)
      modifies returnValues, this`advantages
      ensures Valid()
      ensures returnValues[..] == Returns(rows[..], lastValues, gamma, lam)
      ensures advantages == NormalizedAdvantages(RawAdvantages(returnValues[..], rows[..], numEnvs), sqrt)
    {
      BackwardPass(lastValues, gamma, lam);
      advantages := NormalizedAdvantages(RawAdvantages(returnValues[..], rows[..], numEnvs), sqrt);
    }

    /** The loop of `compute_returns`: rows are visited from the last to the first. */
    method BackwardPass(lastValues: seq<real>, gamma: real, lam: real)
      requires Valid() && |lastValues| == numEnvs
      modifies returnValues
      ensures Valid()
      ensures returnValues[..] == Returns(rows[..], lastValues, gamma, lam)
    {
      var rs := rows[..];
      var advantage: seq<real> := seq(numEnvs, _ => 0.0);
      var t := numTransitionsPerEnv;
      while t > 0
        invariant 0 <= t <= numTransitionsPerEnv && |advantage| == numEnvs
        invariant forall e :: 0 <= e < numEnvs ==>
          advantage[e] == if t == numTransitionsPerEnv then 0.0 else Advantage(rs, lastValues, gamma, lam, t, e)
        invariant forall k :: 0 <= k < numTransitionsPerEnv ==> |returnValues[k]| == numEnvs
        invariant forall k :: t <= k < numTransitionsPerEnv ==>
          returnValues[k] == ReturnsRow(rs, lastValues, gamma, lam, k)
      {
        t := t - 1;
        var nextValues := if t == numTransitionsPerEnv - 1 then lastValues else rows[t + 1].values;
        var record := rows[t];
        assert Shaped(rs[t], numEnvs);
        assert t < numTransitionsPerEnv - 1 ==> Shaped(rs[t + 1], numEnvs);
        var previous := advantage;
        advantage := seq(numEnvs, e requires 0 <= e < numEnvs =>
          var notTerminal := Mask(record.dones[e]);
          var delta := TdError(record.rewards[e], notTerminal, gamma, nextValues[e], record.values[e]);
          GaeStep(delta, notTerminal, gamma, lam, previous[e]));
        forall e | 0 <= e < numEnvs
          ensures advantage[e] == Advantage(rs, lastValues, gamma, lam, t, e)
        {
          AdvantageStep(rs, lastValues, gamma, lam, t, e, previous[e]);
        }
        var row := seq(numEnvs, e requires 0 <= e < numEnvs => advantage[e] + record.values[e]);
        assert row == ReturnsRow(rs, lastValues, gamma, lam, t);
        returnValues[t] := row;
      }
      assert returnValues[..] == Returns(rs, lastValues, gamma, lam);
    }

    /**
     * The batches the generator yields, in order: `numEpochs` passes over the same permutation,
     * each cut into `numMiniBatches` consecutive slices of `N * T / numMiniBatches` indices.
     */
    method MiniBatchGenerator(numMiniBatches: nat, numEpochs: nat, indices: seq<nat>) returns (batches: seq<seq<Sample>>)
      requires Valid() && numMiniBatches > 0
      requires IsPermutation(indices, numMiniBatches * (numEnvs * numTransitionsPerEnv / numMiniBatches))
      ensures |Samples(rows[..], returnValues[..], advantages, numEnvs, hasPrivileged)| == numEnvs * numTransitionsPerEnv
      ensures forall j :: 0 <= j < |indices| ==> indices[j] < numEnvs * numTransitionsPerEnv
      ensures batches == Repeat(OneEpoch(Samples(rows[..], returnValues[..], advantages, numEnvs, hasPrivileged),
                                         indices, numMiniBatches, numEnvs * numTransitionsPerEnv / numMiniBatches),
                                numEpochs)
    {
      var batchSize := numEnvs * numTransitionsPerEnv;
      var miniBatchSize := batchSize / numMiniBatches;
      DivMulLe(batchSize, numMiniBatches);
      var samples := Samples(rows[..], returnValues[..], advantages, numEnvs, hasPrivileged);
      assert |samples| == batchSize;
      var epochBatches := OneEpoch(samples, indices, numMiniBatches, miniBatchSize);
      var chunks := Chunks(indices, numMiniBatches, miniBatchSize);
      batches := [];
      for epoch := 0 to numEpochs
        invariant batches == Repeat(epochBatches, epoch)
      {
        var i := 0;
        var before := batches;
        while i < numMiniBatches
          invariant 0 <= i <= numMiniBatches
          invariant batches == before + epochBatches[..i]
        {
          ChunkBounds(numMiniBatches, miniBatchSize, i);
          var start := i * miniBatchSize;
          var end := (i + 1) * miniBatchSize;
          assert indices[start..end] == chunks[i];
          batches := batches + [Gather(samples, indices[start..end])];
          assert epochBatches[..i + 1] == epochBatches[..i] + [epochBatches[i]];
          i := i + 1;
        }
        assert epochBatches[..numMiniBatches] == epochBatches;
      }
    }

    /**
     * Marks the last row done for every environment (the source writes through an alias of the
     * dones buffer), then returns the mean trajectory length and the mean reward.
     */
    method GetStatistics() returns (meanTrajectoryLength: real, meanReward: real)
      requires Valid() && numTransitionsPerEnv > 0 && numEnvs > 0
      modifies rows
      ensures Valid()
      ensures rows[..] == old(rows[..])[numTransitionsPerEnv - 1 :=
                                         old(rows[numTransitionsPerEnv - 1]).(dones := seq(numEnvs, _ => true))]
      ensures meanTrajectoryLength == Mean(AsReals(TrajectoryLengths(EnvMajorDones(rows[..], numEnvs))))
      ensures meanTrajectoryLength >= 1.0
      ensures meanReward == Mean(Flatten(RewardRows(rows[..])))
    {
      var last := numTransitionsPerEnv - 1;
      assert Shaped(rows[..][last], numEnvs);
      rows[last] := rows[last].(dones := seq(numEnvs, _ => true));
      assert Rect(rows[..], numEnvs);
      var flatDones := EnvMajorDones(rows[..], numEnvs);
      var doneIndices := [-1] + DoneIndices(flatDones);
      var trajectoryLengths := Diffs(doneIndices);
      MeanTrajectoryLength(rows[..], numEnvs);
      meanTrajectoryLength := Mean(AsReals(trajectoryLengths));
      meanReward := Mean(Flatten(RewardRows(rows[..])));
    }
  }
}
