# HIMLoco PPO core, modelled in Dafny

This project models the learning core of HIMLoco, a legged-locomotion training stack built on a
PPO trainer. It covers four pieces:

- **The rollout buffer** (`HIMRolloutStorage`, file `rollout_storage.dfy`, module
  `RolloutStorage`). It records one row of transitions per environment step. It then computes
  returns and normalised advantages by generalised advantage estimation (GAE), and serves the
  flattened buffer back as shuffled mini-batches. It also reports episode statistics.
- **The policy** (`HIMActorCritic`, file `actor_critic.dfy`, module `ActorCritic`). This covers
  the layer chains of the actor and critic MLPs, how the actor's input is assembled from the
  observation history and the estimator's velocity and latent outputs, and the diagonal
  Gaussian policy with its log-probabilities and entropy.
- **The PPO algorithm** (`HIMPPO`, file `ppo.dfy`, module `Ppo`). This covers collecting a
  transition, bootstrapping rewards on time-outs, and computing returns. It also covers the
  update loop: the KL-adaptive learning rate, the clipped surrogate loss, the clipped value
  loss, the combined loss, the mean losses returned, and clearing the buffer.
- **The training helpers** (file `helpers.dfy`, module `Helpers`):
  - choosing the run directory and the checkpoint to resume from (`get_load_path`);
  - overriding configuration fields from command-line arguments (`update_cfg_from_args`);
  - the exported HIM policy's forward pass.

Tensors are sequences of exact reals, and a tensor of shape [T, N] is a `seq<seq<real>>`. Row
`t` of the buffer's ten per-field tensors is one `StepRecord`, so the buffer is an
`array<StepRecord>` that `AddTransitions` writes in place. The PPO object, the actor-critic,
the transition and the configuration objects are classes whose methods update their fields.

Some things the code does cannot be computed in Dafny, so they are parameters of the
operations that use them:

- the neural networks (actor, critic, estimator) and the estimator's own training step;
- `exp`, `log`, `sqrt` and L2 normalisation;
- the random permutation and the Gaussian noise;
- the per-batch KL means;
- the directory listing.

The model states what the code does with what these return.

`Numerics` holds the tensor reductions (sum, mean, unbiased variance, flattening, clamping,
normalisation). `Wrappers` holds `Option`, `Outcome` and `Result`.

Five points where the code and a natural reading of its purpose part ways. The model follows
the code in the first four; the fifth is a check it leaves out:

- `update` returns the mean value and surrogate losses, but the estimation and swap losses of
  the **last** mini-batch, not their means (`him_ppo.py:198`). `Ppo.HimPpo.Update` states this.
- `mini_batch_generator` draws one permutation and replays it in every epoch
  (`him_rollout_storage.py:140,159`). `RolloutStorage.Storage.MiniBatchGenerator` therefore
  yields `Repeat(OneEpoch(...), numEpochs)`.
- The model files are sorted on their names left-padded with `'0'` to 15 characters
  (`helpers.py:135`). Below checkpoint 1000000 this sorts them by checkpoint number
  (`Helpers.ModelKeyOrdersCheckpoints`). From there on the names are longer than the padding and
  sort as plain strings, so `model_1000000.pt` comes before `model_999999.pt`
  (`Helpers.ModelKeyMisordersFromMillion`). The model keeps the code's key.
- `get_statistics` writes `done[-1] = 1` through an alias of the stored `dones` buffer, so the
  buffer itself changes (`him_rollout_storage.py:130-131`).
  `RolloutStorage.Storage.GetStatistics` modifies the rows to say so.
- The comment at `him_actor_critic.py:101` says argument validation is disabled, but line 102
  assigns `False` to the attribute `Normal.set_default_validate_args` instead of calling that
  method. `Normal` therefore still validates its arguments at line 139. The model leaves that
  check out (see `ActorCritic.HimActorCritic.UpdateDistribution` under "Left out").

## Model

| member | source | states |
|---|---|---|
| RolloutStorage.ZeroRecord | rsl_rl/rsl_rl/storage/him_rollout_storage.py:68-85 | a freshly allocated row has one entry per environment in every field, each of the given width; every observation, action, mean and sigma entry, reward, value and log-probability is 0, and no step is done |
| RolloutStorage.Transition.constructor | rsl_rl/rsl_rl/storage/him_rollout_storage.py:37-48 | a new transition has every field unset (None) |
| RolloutStorage.Transition.Clear | rsl_rl/rsl_rl/storage/him_rollout_storage.py:50-51 | clearing unsets every field |
| RolloutStorage.Transition.Record | rsl_rl/rsl_rl/storage/him_rollout_storage.py:97-106 | the row written has the transition's observations, actions, rewards, dones, values, log-probabilities, action means and sigmas; the privileged and next privileged observations come from the transition's critic and next critic observations only when the privileged buffers exist, otherwise the row keeps what it held |
| RolloutStorage.Storage.constructor | rsl_rl/rsl_rl/storage/him_rollout_storage.py:53-90 | every buffer is zero-filled with T rows of N entries, step is 0, and the privileged buffers exist exactly when a privileged shape is given |
| RolloutStorage.Storage.AddTransitions | rsl_rl/rsl_rl/storage/him_rollout_storage.py:92-108 | when the buffer is full it fails with the overflow error and changes nothing; otherwise it writes exactly row `step` with the transition's record and advances `step` by one |
| RolloutStorage.Storage.Clear | rsl_rl/rsl_rl/storage/him_rollout_storage.py:110-111 | resets the write position to 0 and keeps the buffer's shape |
| RolloutStorage.Mask | rsl_rl/rsl_rl/storage/him_rollout_storage.py:120 | the not-terminal factor is 0 exactly when the step is done and 1 exactly when it is not |
| RolloutStorage.Storage.ComputeReturns | rsl_rl/rsl_rl/storage/him_rollout_storage.py:113-127 | the backward loop leaves every row of the returns equal to the GAE advantage of that row plus its value, and the advantages equal the normalised `returns - values` |
| RolloutStorage.Storage.BackwardPass | rsl_rl/rsl_rl/storage/him_rollout_storage.py:114-123 | visiting the rows from last to first, carrying one advantage per environment, writes every row of the returns as `Returns` defines it, and nothing else |
| RolloutStorage.BackwardIsDiscountedSum | rsl_rl/rsl_rl/storage/him_rollout_storage.py:114-123 | the backward recursion `A_t = delta_t + decay_t * A_(t+1)` equals the sum of later TD errors, each weighted by the product of the decays in between |
| RolloutStorage.AdvantageIsBackward | rsl_rl/rsl_rl/storage/him_rollout_storage.py:115-122 | one environment's advantage is the backward recursion over its column of TD errors and decays `gamma * lam * (1 - done)` |
| RolloutStorage.AdvantageIsDiscountedSum | rsl_rl/rsl_rl/storage/him_rollout_storage.py:114-123 | closed form of GAE: the advantage is the discounted sum of the TD errors from that step to the end of the buffer |
| RolloutStorage.WeightAfterDone | rsl_rl/rsl_rl/storage/him_rollout_storage.py:120-122 | a TD error past a done step carries weight 0: an episode end cuts off everything after it |
| RolloutStorage.DoneReturnIsReward | rsl_rl/rsl_rl/storage/him_rollout_storage.py:120-123 | the return of a done step is its reward alone |
| RolloutStorage.LastReturnBootstraps | rsl_rl/rsl_rl/storage/him_rollout_storage.py:116-123 | the return of the last row of a step that is not done is its reward plus `gamma` times the last value estimate |
| Numerics.NormalizedSumZero | rsl_rl/rsl_rl/storage/him_rollout_storage.py:126-127 | after subtracting the mean and dividing by any non-zero denominator, the advantages sum, and average, to zero |
| Numerics.SampleVariance | rsl_rl/rsl_rl/storage/him_rollout_storage.py:127 | the unbiased variance behind `std()` is never negative, so `std() + 1e-8` is a positive denominator |
| Numerics.Clamp | rsl_rl/rsl_rl/algorithms/him_ppo.py:164-165 | for `lo <= hi` the clamped value lies in `[lo, hi]`; it is the input when the input is in range, and otherwise the bound it crossed |
| RolloutStorage.Samples | rsl_rl/rsl_rl/storage/him_rollout_storage.py:142-156 | flattening the buffer gives exactly `T * N` samples, time-major: sample `t * N + e` holds every field of environment `e` in row `t` |
| RolloutStorage.CriticFallsBackToObservation | rsl_rl/rsl_rl/storage/him_rollout_storage.py:143-148 | without privileged buffers, every sample's critic and next-critic observations are its actor observation |
| RolloutStorage.GatherPermutation | rsl_rl/rsl_rl/storage/him_rollout_storage.py:164-175 | gathering along a permutation of `0 .. m - 1` yields the first `m` samples, each exactly once (equal multisets) |
| RolloutStorage.EpochIsPermutation | rsl_rl/rsl_rl/storage/him_rollout_storage.py:138-175 | one epoch's mini-batches, put back together, are the samples gathered along the permutation, and as a multiset they are exactly the first `numMiniBatches * size` samples: no sample is lost or repeated within an epoch |
| RolloutStorage.ChunksCover | rsl_rl/rsl_rl/storage/him_rollout_storage.py:159-164 | the consecutive slices `[i * size, (i + 1) * size)` of one epoch, put back together, are the whole permutation: every drawn index is served exactly once per epoch |
| RolloutStorage.RepeatIndex | rsl_rl/rsl_rl/storage/him_rollout_storage.py:159-161 | mini-batch `i` of every epoch is mini-batch `i` of the first epoch, because the permutation is drawn once |
| RolloutStorage.Storage.MiniBatchGenerator | rsl_rl/rsl_rl/storage/him_rollout_storage.py:137-177 | the batches yielded are `numEpochs` repetitions of one epoch, and each epoch is the samples gathered along consecutive slices of the permutation, of size `N * T / numMiniBatches` each |
| RolloutStorage.DoneIndices | rsl_rl/rsl_rl/storage/him_rollout_storage.py:133 | the indices returned are exactly the positions of the set flags: each is in range and marks a done step, and every done step is among them |
| RolloutStorage.DoneIndicesIncreasing | rsl_rl/rsl_rl/storage/him_rollout_storage.py:133 | the done indices are strictly increasing, and a final done flag makes the last index the last position |
| RolloutStorage.DiffsTelescope | rsl_rl/rsl_rl/storage/him_rollout_storage.py:134 | consecutive differences sum to the last element minus the first |
| RolloutStorage.TrajectoryLengthsPartition | rsl_rl/rsl_rl/storage/him_rollout_storage.py:131-134 | when the last flag is set, the trajectory lengths are positive and add up to the number of flags, so they partition the env-major flattening |
| RolloutStorage.LastFlagSet | rsl_rl/rsl_rl/storage/him_rollout_storage.py:130-132 | once the last row is marked done for every environment, the env-major flattening ends with a set flag |
| RolloutStorage.MeanTrajectoryLength | rsl_rl/rsl_rl/storage/him_rollout_storage.py:129-135 | the mean trajectory length is the number of steps over the number of trajectories, and at least 1 |
| RolloutStorage.Storage.GetStatistics | rsl_rl/rsl_rl/storage/him_rollout_storage.py:129-135 | it marks the last row done in the buffer itself and changes nothing else; it returns the mean trajectory length, at least 1, and the mean reward over all steps |
| ActorCritic.BuildMlp | rsl_rl/rsl_rl/modules/him_actor_critic.py:70-92 | the layer list alternates linear layers and activations: linear layer `i` maps width `i` to width `i + 1` of input, hidden widths and output, and no activation follows the last one |
| ActorCritic.MlpChain | rsl_rl/rsl_rl/modules/him_actor_critic.py:70-92 | the linear layers of such a list form a chain: the first reads the input width, the last writes the output width, and each one reads what the previous one wrote |
| ActorCritic.HistorySize | rsl_rl/rsl_rl/modules/him_actor_critic.py:58 | the history size is the largest number of whole one-step observations that fit in the actor observation |
| ActorCritic.ActorInput | rsl_rl/rsl_rl/modules/him_actor_critic.py:136-137 | the actor input is the newest one-step observation, then the velocity estimate, then the latent code; with the estimator's widths it has `num_one_step_obs + 3 + 16` entries |
| ActorCritic.SampleWith | rsl_rl/rsl_rl/modules/him_actor_critic.py:143-144 | a sample has the shape of the mean, and equals the mean wherever the standard deviation or the noise is zero |
| ActorCritic.ExponentBounds | rsl_rl/rsl_rl/modules/him_actor_critic.py:146-148 | the exponent of the Gaussian log-density is never positive, and it is zero at the mean |
| ActorCritic.LogDensityMaximalAtMean | rsl_rl/rsl_rl/modules/him_actor_critic.py:146-148 | in one dimension the log-density peaks at the mean |
| ActorCritic.LogProbMaximalAtMean | rsl_rl/rsl_rl/modules/him_actor_critic.py:146-148 | the log-probability summed over the action dimensions is largest at the mean action |
| ActorCritic.LogProbsMaximalAtMean | rsl_rl/rsl_rl/modules/him_actor_critic.py:146-148 | for every environment, no action has a higher log-probability than the distribution's mean |
| ActorCritic.EntropyRowClosedForm | rsl_rl/rsl_rl/modules/him_actor_critic.py:129-131 | the summed entropy is `|sigma| * (0.5 + 0.5 * log(2 pi))` plus the sum of the log standard deviations |
| ActorCritic.HimActorCritic.constructor | rsl_rl/rsl_rl/modules/him_actor_critic.py:42-102 | the history size, both layer chains as `BuildMlp` describes them (actor input width `num_one_step_obs + 19`, critic output 1), `std` filled with the initial noise, and no distribution yet; the object is `Shaped`: the actor chain reads `num_one_step_obs + 19` and writes `num_actions`, and the estimator and actor return rows of their stated widths |
| ActorCritic.HimActorCritic.ActorInputFitsActor | rsl_rl/rsl_rl/modules/him_actor_critic.py:63-71 | for a history holding a full one-step observation, the assembled actor input has exactly the width the actor's first linear layer reads |
| ActorCritic.HimActorCritic.DistributionRowsMatch | rsl_rl/rsl_rl/modules/him_actor_critic.py:133-139 | the policy's distribution has one row per environment, and every row has `num_actions` means and as many standard deviations |
| ActorCritic.HimActorCritic.ActInferenceReadsNewestStep | rsl_rl/rsl_rl/modules/him_actor_critic.py:150-155 | an environment's inference action depends only on the first `num_one_step_obs` entries of its own history and on the estimator's output for it: histories that agree there get the same action, in any batch and at any position |
| ActorCritic.HimActorCritic.EvaluatePerEnvironment | rsl_rl/rsl_rl/modules/him_actor_critic.py:157-159 | environments are valued independently: equal critic observations get equal values, in any batch and at any position |
| ActorCritic.HimActorCritic.UpdateDistribution | rsl_rl/rsl_rl/modules/him_actor_critic.py:133-139 | the new distribution has the inference means and, in every environment, the learned standard deviation; nothing else changes |
| ActorCritic.HimActorCritic.Act | rsl_rl/rsl_rl/modules/him_actor_critic.py:141-144 | it updates the distribution as above and returns a sample of it for the given noise, one per environment |
| ActorCritic.HimActorCritic.Entropy | rsl_rl/rsl_rl/modules/him_actor_critic.py:129-131 | one entropy per environment; under a broadcast standard deviation every environment has the same entropy |
| ActorCritic.HimActorCritic.GetActionsLogProb | rsl_rl/rsl_rl/modules/him_actor_critic.py:146-148 | one log-probability per environment: the Gaussian log-density of that environment's action under its mean and standard deviation, summed over the action dimensions, and never more than the log-probability of the mean action |
| ActorCritic.HimActorCritic.Reset | rsl_rl/rsl_rl/modules/him_actor_critic.py:115-116 | resetting changes neither the distribution nor the standard deviation |
| ActorCritic.HimActorCritic.Forward | rsl_rl/rsl_rl/modules/him_actor_critic.py:118-119 | always fails with "not implemented" |
| Ppo.HimPpo.constructor | rsl_rl/rsl_rl/algorithms/him_ppo.py:40-79 | every hyper-parameter is stored as given, the optimiser has one parameter group at the given learning rate, the transition is empty and no storage exists yet |
| Ppo.HimPpo.InitStorage | rsl_rl/rsl_rl/algorithms/him_ppo.py:81-82 | a fresh, empty buffer of the given sizes, with privileged buffers exactly when a critic observation shape is given |
| Ppo.HimPpo.Act | rsl_rl/rsl_rl/algorithms/him_ppo.py:90-102 | the transition records the sampled actions, the critic's values, the actions' log-probabilities, the policy mean and standard deviation, and both observations; the returned actions are the sample, and the step's rewards, dones and next observations are left alone |
| Ppo.BootstrapRewards | rsl_rl/rsl_rl/algorithms/him_ppo.py:107-111 | without time-out information the rewards are unchanged, and an environment that did not time out keeps its reward |
| Ppo.TimedOutReward | rsl_rl/rsl_rl/algorithms/him_ppo.py:110-111 | an environment that timed out gets its reward plus `gamma` times its value estimate |
| Ppo.TimeOutReturn | rsl_rl/rsl_rl/algorithms/him_ppo.py:110-111 | a timed-out step is done, so GAE stops there, and its return is its raw reward plus `gamma` times its own value: the bootstrap stands in for the cut-off future |
| Ppo.HimPpo.ProcessEnvStep | rsl_rl/rsl_rl/algorithms/him_ppo.py:104-118 | when the buffer has room, row `step` receives the acted transition with its bootstrapped rewards, dones and next critic observations, `step` advances and the transition is cleared; when the buffer is full it fails with the overflow error, leaves the buffer unchanged and does not clear the transition, which keeps the step's rewards, dones and next observations and every field `act` filled |
| Ppo.HimPpo.ComputeReturns | rsl_rl/rsl_rl/algorithms/him_ppo.py:120-123 | the buffer's returns are GAE's returns bootstrapped from the critic's values of the last critic observations, and the advantages are their normalisation |
| Ppo.AdaptiveLr | rsl_rl/rsl_rl/algorithms/him_ppo.py:144-153 | a KL above twice the target divides the rate by 1.5, floored at 1e-5; a positive KL below half the target multiplies it by 1.5, capped at 1e-2; otherwise the rate is kept; and a rate in `[1e-5, 1e-2]` stays there |
| Ppo.LrScheduleInRange | rsl_rl/rsl_rl/algorithms/him_ppo.py:144-156 | over any number of mini-batches, a learning rate that starts in `[1e-5, 1e-2]` stays there |
| Ppo.Surrogate | rsl_rl/rsl_rl/algorithms/him_ppo.py:162-166 | the per-sample surrogate is the larger of the unclipped and clipped terms: it is at least each of them and equal to one |
| Ppo.SurrogateUnclippedInRange | rsl_rl/rsl_rl/algorithms/him_ppo.py:162-166 | when the ratio is within `1 +- clip`, clipping changes nothing |
| Ppo.SurrogateIsNegatedMin | rsl_rl/rsl_rl/algorithms/him_ppo.py:162-166 | the loss is minus the PPO clipped objective `min(r * A, clip(r) * A)` |
| Ppo.ValueClipped | rsl_rl/rsl_rl/algorithms/him_ppo.py:170-171 | the clipped value lies within `clip` of the stored value, and is the new value when that is already within range |
| Ppo.ValueLossSample | rsl_rl/rsl_rl/algorithms/him_ppo.py:169-176 | the clipped loss is the larger of the unclipped and clipped squared errors: at least each of them and equal to one; the unclipped loss is the squared error |
| Ppo.ValueLossBounds | rsl_rl/rsl_rl/algorithms/him_ppo.py:169-176 | the value loss never falls below the plain squared error, and equals it when the new value is within `clip` of the stored one |
| Ppo.CombinedLossMonotone | rsl_rl/rsl_rl/algorithms/him_ppo.py:178 | with non-negative coefficients, the loss rises with the surrogate and value losses and falls as the entropy rises |
| Ppo.HimPpo.Batches | rsl_rl/rsl_rl/algorithms/him_ppo.py:131 | the generator yields `epochs * mini_batches` batches |
| Ppo.HimPpo.TrainOnBatch | rsl_rl/rsl_rl/algorithms/him_ppo.py:136-187 | the policy is rebuilt on the batch, the learning rate is adapted and copied to every parameter group only under the adaptive schedule, the estimator is updated at the new rate, and the batch's value and surrogate losses are returned with the combined loss `surrogate + value_loss_coef * value_loss - entropy_coef * mean entropy` of the rebuilt policy |
| Ppo.HimPpo.TrainOnBatches | rsl_rl/rsl_rl/algorithms/him_ppo.py:133-189 | the batches are trained on in order: the learning rate is the adaptive schedule over the batches' KL means, the value and surrogate losses are added up over the batches, and the estimation and swap losses are those of the last batch at the final learning rate |
| Ppo.HimPpo.Update | rsl_rl/rsl_rl/algorithms/him_ppo.py:125-198 | after all batches the learning rate is the adaptive schedule's result, the returned value and surrogate losses are the totals over the batches divided by `epochs * mini_batches`, the estimation and swap losses are those of the last batch, and the buffer is cleared |
| Helpers.LexLeTotal | legged_gym/legged_gym/utils/helpers.py:121 | Python's string order is total |
| Helpers.LexLeTransitive | legged_gym/legged_gym/utils/helpers.py:121 | Python's string order is transitive |
| Helpers.LexLeAntisymmetric | legged_gym/legged_gym/utils/helpers.py:121 | Python's string order is antisymmetric, so the greatest name is unique |
| Helpers.MaxIndexIsGreatest | legged_gym/legged_gym/utils/helpers.py:121-123 | the chosen index holds a greatest key, and every later element has a strictly smaller key: it is what a stable sort puts last |
| Helpers.SelectLast | legged_gym/legged_gym/utils/helpers.py:121-123 | the scan returns the index of the element a sort puts last |
| Helpers.Join | legged_gym/legged_gym/utils/helpers.py:140 | joining with an absolute path gives that path; otherwise the result is the base, at most one `/`, then the name, and a non-empty base is always followed by a `/` before the name |
| Helpers.RemoveFirst | legged_gym/legged_gym/utils/helpers.py:122 | removes one occurrence of the name when present, and changes nothing otherwise |
| Helpers.RunsExcludeExported | legged_gym/legged_gym/utils/helpers.py:119-122 | "exported" is never a candidate run, and every other entry is |
| Helpers.RunDirectory | legged_gym/legged_gym/utils/helpers.py:117-131 | for the latest run it fails exactly when the listing fails or holds no runs, with "No runs in this directory: " and the root; an absolute run name is used as it is; a relative one is the root joined to it with `Join`, so it lies under the root |
| Helpers.LatestRunIsGreatest | legged_gym/legged_gym/utils/helpers.py:117-126 | the latest run is the root joined to the run name that is greatest in string order, and that name is unique |
| Helpers.ModelFiles | legged_gym/legged_gym/utils/helpers.py:134 | a name is a candidate exactly when it is listed and contains "model" |
| Helpers.ModelKey | legged_gym/legged_gym/utils/helpers.py:135 | the sort key is the name left-padded with '0' to 15 characters, and a longer name is left as it is |
| Helpers.ModelKeyOrdersCheckpoints | legged_gym/legged_gym/utils/helpers.py:135-138 | for checkpoints below one million, the padded key of a smaller checkpoint's file sorts strictly before that of a larger one, so the last model file is the highest checkpoint |
| Helpers.ModelKeyMisordersFromMillion | legged_gym/legged_gym/utils/helpers.py:135-138 | names longer than the padding are compared as plain strings: the key of checkpoint 1000000 sorts strictly before the key of checkpoint 999999 |
| Helpers.NatToString | legged_gym/legged_gym/utils/helpers.py:138 | `str(n)` is a non-empty string of decimal digits, with no leading `0` unless `n` is 0 |
| Helpers.NatToStringRoundTrip | legged_gym/legged_gym/utils/helpers.py:138 | reading back the decimal digits written for a natural number gives the number |
| Helpers.IntToStringRoundTrip | legged_gym/legged_gym/utils/helpers.py:138 | reading back the decimal text written for an integer, sign included, gives the integer |
| Helpers.CheckpointFile | legged_gym/legged_gym/utils/helpers.py:138 | the file name starts with "model_" and ends with ".pt" |
| Helpers.CheckpointFileInjective | legged_gym/legged_gym/utils/helpers.py:138 | different checkpoints name different files |
| Helpers.ModelChoice | legged_gym/legged_gym/utils/helpers.py:133-138 | for checkpoint -1 it fails when the listing fails, and with an index error exactly when no name contains "model"; otherwise the chosen file is listed and contains "model". For any other checkpoint the result is `model_<checkpoint>.pt`, whatever the directory holds, and its digits read back as that checkpoint |
| Helpers.LatestModelIsGreatest | legged_gym/legged_gym/utils/helpers.py:133-136 | the chosen model file is the one the padded-key sort puts last |
| Helpers.GetLoadPath | legged_gym/legged_gym/utils/helpers.py:116-141 | the load path is the chosen run directory joined to the chosen model file, and the first failure on the way is the result |
| Helpers.Override | legged_gym/legged_gym/utils/helpers.py:147-168 | an argument that is given replaces the configured value, and a missing one keeps it |
| Helpers.UpdateEnvCfg | legged_gym/legged_gym/utils/helpers.py:145-152 | the number of environments and the seed are overridden by the arguments given, and the recover mode is taken from the flag |
| Helpers.UpdateTrainCfg | legged_gym/legged_gym/utils/helpers.py:153-168 | seed, iterations, experiment and run names, load run and checkpoint are overridden by the arguments given; resume is only ever switched on |
| Helpers.UpdateRunnerCfg | legged_gym/legged_gym/utils/helpers.py:156-168 | the runner's fields are overridden by the arguments given, resume only when the flag is set, and the seed is left alone |
| Helpers.UpdateCfgFromArgs | legged_gym/legged_gym/utils/helpers.py:143-170 | the same objects come back; a missing configuration is left alone; a given seed ends up in both configurations |
| Helpers.ExporterInput | legged_gym/legged_gym/utils/helpers.py:249-253 | the exported actor input has the actor's input width `45 + 3 + 16` |
| Helpers.ExporterMatchesActInference | legged_gym/legged_gym/utils/helpers.py:249-253 | the exported policy computes the same action as `act_inference` when the estimator's output is the first 19 encoder columns, with the latent part L2-normalised |

## Left out

- Neural networks, gradients, Adam, `clip_grad_norm_` and the gradient step (`him_ppo.py:180-184`).
  The actor, critic and estimator are opaque functions, and their parameters and `std` do not
  change in the model.
- The estimator's own training step (`estimator.update`) is a function parameter of `Update`.
  It is assumed pure and depends only on the two observation batches and the learning rate.
- The KL divergence (`him_ppo.py:146-148`) is not computed: each mini-batch's KL mean is an
  input of `Ppo.HimPpo.Update`. The model states what the schedule does with it.
- `exp`, `log`, `sqrt` and `F.normalize` are function parameters. Floating point is modelled by
  exact reals, so rounding, infinities and NaN are not modelled.
- NaN and undefined cases have stand-ins:
  - the mean of an empty tensor is 0;
  - the variance of fewer than two entries is 0;
  - a zero standard deviation gives a Gaussian exponent of 0 (the source never evaluates the
    density there, see `ActorCritic.HimActorCritic.UpdateDistribution` below);
  - log-probabilities sum over the common width of rows of different widths, which torch
    refuses; `ActorCritic.HimActorCritic.DistributionRowsMatch` shows the policy's own
    distribution never has such rows.
- `torch.randperm` and `Normal.sample` are replaced by the given permutation and noise.
- `RolloutStorage.Storage.MiniBatchGenerator`: the generator is an eager list of batches, not
  a lazy Python generator.
- `RolloutStorage.Storage.GetStatistics` requires a non-empty buffer. With `T == 0` or `N == 0`
  the source indexes out of range or returns NaN.
- `Helpers.GetLoadPath`:
  - the sort of the run names and of the model files is replaced by a scan for the element a
    stable sort puts last;
  - `os.listdir` is a function parameter;
  - the `print` calls are left out.
- `Helpers.UpdateEnvCfg`: `recover_mode` is a command-line flag that is never None, so it always
  overrides the configured value.
- The nested configuration objects (`env_cfg.env`, `env_cfg.domain_rand`, `cfg_train.runner`)
  are flattened into two classes with the fields `update_cfg_from_args` touches.
- Devices (`.to(device)`), `detach`, `no_grad`, `test_mode`/`train_mode`, weight
  initialisation and the printed network summaries have no effect on the values modelled.
- ActorCritic.HimActorCritic.UpdateDistribution: torch's `Normal` checks that every scale entry
  is positive (`him_actor_critic.py:139`), and raises `ValueError` for a batch holding a standard
  deviation entry that is 0, negative or NaN. The model builds the distribution from any `std`.
  The initial `init_noise_std` and `std` are not required to be positive, so that failure is
  not modelled. The same holds for `Act`, `TrainOnBatch`, `TrainOnBatches` and `Update`, which
  build the distribution through it.
- RolloutStorage.Storage.MiniBatchGenerator requires `numMiniBatches > 0`. With 0 the source
  raises `ZeroDivisionError` at `him_rollout_storage.py:139`.
- Ppo.HimPpo.Batches requires `numMiniBatches > 0`, for the same `ZeroDivisionError` at
  `him_rollout_storage.py:139`.
- Ppo.HimPpo.Update requires `numLearningEpochs > 0` and `numMiniBatches > 0`. With 0 mini-batches
  the source raises `ZeroDivisionError` at `him_rollout_storage.py:139`. With 0 epochs it
  raises `ZeroDivisionError` at `him_ppo.py:192`.
- ActorCritic.BuildMlp requires a non-empty list of hidden widths. With an empty list the
  source raises `IndexError` at `him_actor_critic.py:71` (`actor_hidden_dims[0]`).
- ActorCritic.HistorySize requires `numOneStepObs > 0`. With 0 the source raises
  `ZeroDivisionError` at `him_actor_critic.py:58`.
- ActorCritic.HimActorCritic.constructor requires `numOneStepObs > 0` and non-empty hidden width
  lists, for the `ZeroDivisionError` at `him_actor_critic.py:58` and the `IndexError` at lines 71
  and 84. It also requires the opaque estimator to return 3 velocity and 16 latent entries and the
  opaque actor to return `num_actions` entries. The source builds the actor with that output
  width (line 75), and the estimator is not part of this model.
- RolloutStorage.Storage.AddTransitions checks only that the transition has one row per
  environment, not the widths of the observation, action, mean and sigma rows. On a width
  mismatch the source's `copy_` (`him_rollout_storage.py:97-106`) raises `RuntimeError`, or
  broadcasts a source of width 1, or of a single environment row. The model writes the rows as
  given.
- `ActorCritic.HimActorCritic.Reset` is the source's no-op: it keeps every field.
- The estimator network (`HIMEstimator`) is not part of this model. Its forward pass is the
  opaque `estimator` function, giving the velocity and latent outputs.
- The buffer is an array of row records instead of ten separate tensors. A tensor that two
  names share is not modelled, except for the `dones` alias in `get_statistics`.
- `RolloutStorage.Storage.ComputeReturns` takes `sqrt` as a parameter.
  `RolloutStorage.NormalizedAdvantages` states the division by `std() + 1e-8` with that `sqrt`.
