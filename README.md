# TD3+BC trainer and its configuration, in Dafny

This project models the core of `corl/algorithms/td3_bc.py`, a TD3+BC
(twin delayed DDPG with a behaviour-cloning term) offline reinforcement
learning trainer. It covers three parts:

- **The `TD3_BC` trainer object.** It holds an actor, two critics, a frozen target copy of each, three optimisers and an iteration counter `total_it`. It provides `__init__`, `train`, `state_dict` and `load_state_dict`.
  - On values, `TD3BC.TrainStep`, `TD3BC.Run` and `TD3BC.Restore` are pure functions over a `TrainerState`.
  - In place, the class `TD3BC.Trainer` has the source's fields. Each of its methods is proved to leave the object in exactly the state those functions compute.
- **One step's arithmetic** (module `Numerics`), over exact reals:
  - the clipped smoothing noise;
  - the clamped next action;
  - the pessimistic target value `reward + (1 - done) * discount * min(q1, q2)`;
  - the sum of the two critics' mean squared errors.

  The soft target update is in module `Polyak`.
- **`TrainConfig.__post_init__`** (module `Config`): the run name, the checkpoint directory, the iteration count, the dropped diffusion settings and the GDA (generated-data augmentation) tag derived from the dataset path. It uses a model of Python's `str.split` and of POSIX `os.path.join` (module `PathText`).

Torch never appears. The forward passes, the backward-plus-optimiser steps and the value of the actor loss are functions held in a `Backend` value, and nothing is assumed about them except that an optimiser step keeps the parameter vector's length. A network is its parameters flattened into a `seq<real>`. The standard-normal sample of `torch.randn_like` and the text of `uuid.uuid4()` are inputs.

These exceptions the source raises are outcomes of the model (the others are listed under "Left out"):

- A target actor whose output does not have the action's width gives `ShapeMismatch`. The broadcast fails at line 216, after `total_it` was already incremented.
- `policy_freq == 0` gives `ZeroDivisionError` when the target actor's widths agree (otherwise the broadcast at line 216 raises first). Python's `%` at line 241 raises only after both critics have taken their step, and the model keeps that order.
- A strict `load_state_dict` of a wrongly shaped network gives `ok == false`. The groups already processed stay restored.

## Model

| member | source | states |
|---|---|---|
| Numerics.Clamp | corl/algorithms/td3_bc.py:212-218 | `torch.clamp` semantics: within the bounds when they are ordered, identity inside them, the upper bound when they cross |
| Numerics.SmoothingNoise | corl/algorithms/td3_bc.py:212-214 | the smoothing noise has the action's shape and lies in [-noise_clip, noise_clip]; small samples pass through scaled and unclipped |
| Numerics.SmoothedAction | corl/algorithms/td3_bc.py:216-218 | the next action lies in [-max_action, max_action] whatever the target actor outputs; in-range sums pass through |
| Numerics.TargetValue | corl/algorithms/td3_bc.py:221-224 | the target is the reward when done = 1, is at most what either critic alone gives (discount >= 0, done <= 1), and is the pessimistic critic's formula |
| Numerics.Mse | corl/algorithms/td3_bc.py:231 | `F.mse_loss` is never negative and is zero exactly when prediction equals target |
| Numerics.SumSquaresZero | corl/algorithms/td3_bc.py:231 | a sum of squared differences is non-negative and zero if and only if the two vectors are equal |
| TD3BC.NextAction | corl/algorithms/td3_bc.py:212-218 | the smoothed next action of one transition has the noise's shape and is within ±max_action |
| TD3BC.TargetAt | corl/algorithms/td3_bc.py:206-224 | one transition's target is reward + (1 - done) * discount * min(q1, q2) of the two target critics at the smoothed next action: the reward on a terminal transition, and never above the target computed from either target critic alone |
| TD3BC.CriticLoss | corl/algorithms/td3_bc.py:227-232 | critic_loss is non-negative and zero exactly when both critics already match target_q everywhere |
| TD3BC.TrainStep | corl/algorithms/td3_bc.py:201-259 | one `train` call's rules; listed after the table |
| TD3BC.Run | corl/algorithms/td3_bc.py:201-259 | consecutive calls: the counter rises by one per call, a raise ends the run, targets keep their shapes, the first outcome is TrainStep's on the first batch, and the i-th logged call has actor_loss exactly when c + i + 1 is a multiple of policy_freq |
| TD3BC.StopsAtFailureCons | corl/algorithms/td3_bc.py:201-259 | a logged call followed by a run that stops at its first failure is again such a run |
| TD3BC.OnCadenceCons | corl/algorithms/td3_bc.py:241 | extending a cadence-respecting run by a first call on cadence keeps it on cadence |
| TD3BC.CountDelayedClosedForm | corl/algorithms/td3_bc.py:241 | among counter values c+1..c+N exactly floor((c+N)/k) - floor(c/k) satisfy `total_it % k == 0` (k > 0) |
| TD3BC.FloorStep | corl/algorithms/td3_bc.py:241 | the floor quotient by k rises by one from m-1 to m exactly when k divides m |
| TD3BC.ActorUpdatesCounted | corl/algorithms/td3_bc.py:241-248 | in an all-logged run on cadence, the number of logs with actor_loss equals the number of delayed counter values |
| TD3BC.CadenceCount | corl/algorithms/td3_bc.py:241-248 | over N all-logged calls from counter c, the actor is updated floor((c+N)/k) - floor(c/k) times |
| TD3BC.RunTrace | corl/algorithms/td3_bc.py:201-259 | every run has a trace of states from st to its last state in which each call, not only the first, is TrainStep from the state the previous call left |
| TD3BC.RunLogsAll | corl/algorithms/td3_bc.py:201-259 | with policy_freq > 0 and an actor whose output always has the action's width, no call of a run raises: every outcome is logged |
| TD3BC.RunCadence | corl/algorithms/td3_bc.py:201-259 | a run as Run delivers it that logged every call made one call per batch and updated the actor floor((c+N)/k) - floor(c/k) times |
| TD3BC.Restore | corl/algorithms/td3_bc.py:272-285 | `load_state_dict`; listed after the table |
| TD3BC.SnapshotRestore | corl/algorithms/td3_bc.py:261-285 | `load_state_dict(state_dict())` succeeds and keeps live networks, optimisers and counter, setting each target to its live network |
| TD3BC.RestoreForgetsTargets | corl/algorithms/td3_bc.py:272-285 | a successful restore's result does not depend on anything the trainer held before beyond the networks' shapes |
| TD3BC.Trainer.constructor | corl/algorithms/td3_bc.py:163-199 | targets start as copies of the live networks, the counter at 0, and the hyperparameters take the source's defaults |
| TD3BC.Trainer.Train | corl/algorithms/td3_bc.py:201-259 | the in-place `train` leaves exactly TrainStep's new state and returns its outcome, keeping target shapes |
| TD3BC.Trainer.StepCritics | corl/algorithms/td3_bc.py:234-238 | both critics and their optimisers take one step towards target_q in place; nothing else changes |
| TD3BC.Trainer.SyncPolicy | corl/algorithms/td3_bc.py:243-257 | the actor steps against the updated critic 1, then each target is soft-updated towards its own live network, in place |
| TD3BC.Trainer.StateDict | corl/algorithms/td3_bc.py:261-270 | `state_dict` returns the live networks, optimisers and counter without the targets, and changes nothing |
| TD3BC.Trainer.LoadStateDict | corl/algorithms/td3_bc.py:272-285 | the in-place `load_state_dict` reaches exactly Restore's state and reports Restore's success |
| TD3BC.ExportImport | corl/algorithms/td3_bc.py:261-285 | on the object, exporting then importing keeps the live part and counter and resynchronises all three targets |
| Polyak.SoftUpdate | corl/algorithms/td3_bc.py:255-257 | tau = 1 copies the source, tau = 0 keeps the target, a target equal to its source stays |
| Polyak.GapStep | corl/algorithms/td3_bc.py:255-257 | one soft update multiplies each parameter's gap to the source by (1 - tau) |
| Polyak.RepeatedGap | corl/algorithms/td3_bc.py:255-257 | after n soft updates towards a fixed source, each gap is the initial gap times (1 - tau)^n |
| Polyak.GapShrinks | corl/algorithms/td3_bc.py:255-257 | for 0 < tau <= 1 a soft update never widens a gap and strictly narrows an open one |
| Polyak.RepeatedMonotone | corl/algorithms/td3_bc.py:255-257 | for 0 < tau <= 1 the gap never grows from n to n+1 updates |
| Polyak.BernoulliStep | corl/algorithms/td3_bc.py:255-257 | the Bernoulli step (1 - tau)(1 + n tau) <= 1 + (n - 1) tau for tau in [0, 1] |
| Polyak.ScaledBound | corl/algorithms/td3_bc.py:255-257 | a gap scaled n times by (1 - tau) is at most its initial size divided by 1 + n tau |
| Polyak.RepeatedConverges | corl/algorithms/td3_bc.py:255-257 | after n soft updates with 0 < tau <= 1 each gap times 1 + n tau is at most the initial gap, so the target converges to a fixed source |
| PathText.Split | corl/algorithms/td3_bc.py:110 | `str.split` yields at least one part, no part holds the separator, and joining the parts gives back the string |
| PathText.SplitJoin | corl/algorithms/td3_bc.py:110 | splitting a join of separator-free parts returns exactly those parts |
| PathText.LastSegment | corl/algorithms/td3_bc.py:110 | `split("/")[-1]` is a slash-free suffix that is the whole path or follows a slash |
| PathText.LastSegmentUnique | corl/algorithms/td3_bc.py:110 | that description determines the last segment uniquely |
| PathText.Stem | corl/algorithms/td3_bc.py:110 | `split(".")[0]` is a dot-free prefix that is the whole name or is followed by a dot |
| PathText.StemUnique | corl/algorithms/td3_bc.py:110 | that description determines the stem uniquely |
| PathText.PathJoin | corl/algorithms/td3_bc.py:98 | `os.path.join` is the second argument when it is absolute; otherwise it is the first argument, one '/' exactly when the first is non-empty and does not end in '/', then the second |
| PathText.JoinedLastSegment | corl/algorithms/td3_bc.py:98 | joining never changes the final path component |
| Config.UuidPrefixLength | corl/algorithms/td3_bc.py:96 | `[:4]` keeps four characters, or all of a shorter string |
| Config.RunName | corl/algorithms/td3_bc.py:96 | the run name is the old name, the env, the augmentation and the uuid's first four characters in that order, separated by dashes, with the matching length |
| Config.RunNamesDiffer | corl/algorithms/td3_bc.py:96 | two runs of one configuration whose uuids differ in their first four characters get different names |
| Config.DatasetTag | corl/algorithms/td3_bc.py:109-114 | the GDA tag is the dataset file's stem (free of '/' and '.'), then `_<GDA_id>` when an id is set, then `_<mixture>` when a mixture is set |
| Config.SavedDatasetTag | corl/algorithms/td3_bc.py:109-110 | a dataset stored as `<dir>/<file>.<ext>` gets the tag of the bare `file`: neither the directory nor the extension reaches it |
| Config.PostInitOf | corl/algorithms/td3_bc.py:95-114 | `__post_init__`'s rules; listed after the table |
| Config.TrainConfig.PostInit | corl/algorithms/td3_bc.py:95-114 | the in-place `__post_init__` leaves exactly PostInitOf of the old fields |
| Config.TrainConfig.constructor | corl/algorithms/td3_bc.py:36-114 | the dataclass constructor with the source's defaults, followed by `__post_init__` |
| Config.TrainConfig.NameRun | corl/algorithms/td3_bc.py:96 | the run-name step in place |
| Config.TrainConfig.PlaceCheckpoints | corl/algorithms/td3_bc.py:97-98 | the checkpoint-directory step in place |
| Config.TrainConfig.ApplyAugmentation | corl/algorithms/td3_bc.py:99-100 | the identical-augmentation step in place |
| Config.TrainConfig.DropDiffusion | corl/algorithms/td3_bc.py:101-108 | the diffusion-clearing step in place |
| Config.TrainConfig.TagDataset | corl/algorithms/td3_bc.py:109-114 | the GDA derivation in place, built up as the source concatenates it |

`TD3BC.TrainStep` states these rules for one `train` call:

- The counter rises by one.
- `ShapeMismatch` happens exactly when the target actor disagrees with the action shape, and then nothing else changes.
- `ZeroDivisionError` happens exactly when the target actor's widths agree and `policy_freq == 0`.
- Otherwise both critics step towards target_q, and critic_loss is logged as `CriticLoss`.
- actor_loss is logged, and the soft updates happen, exactly on a delayed step.
- On every other step the actor, its optimiser and all three targets are unchanged.
- On a delayed step each target is soft-updated towards its own freshly updated live network.

`TD3BC.Restore` states these rules for `load_state_dict`:

- It succeeds exactly when all three networks have matching shapes.
- On success the live part and the counter equal the snapshot, and each target equals its live network.
- On failure the counter and the actor group are untouched.
- A critic-2 mismatch leaves critic 1, its optimiser and its target restored and everything else as it was.
- An actor mismatch leaves both critic groups restored and everything else as it was.
- In the model a critic-1 mismatch changes nothing. Torch would already have copied critic 1's matching tensors before raising; see "Left out".

`Config.PostInitOf` states these rules for `__post_init__`:

- The name becomes RunName.
- The checkpoint path stays set exactly when it was set; it becomes join(path, new name), and its last component equals the last component of the new name.
- `'identical'` augmentation forces iteration 1.
- GDA None clears all diffusion settings.
- A dataset path sets GDA to DatasetTag. The None test on GDA runs first, so GDA None with a dataset path yields a tag and no diffusion settings.
- Every other field is unchanged.

## Left out

- The `train(config)` driver (lines 288-446) is not modelled: environment creation, datasets, normalisation, the training loop, evaluation, validation, checkpoint files and logging.
- The module-level imports and the environment variable set at line 32 are left out. They are side effects outside the trainer.
- The `Actor` and `Critic` network bodies (lines 119-159) are left out, including `act` and `get_action_array`. The trainer sees them only through the `Backend` functions.
- Losses' gradients, `backward` and the Adam steps are left out. They are the opaque `criticStep` and `actorStep`. The only assumption about them is that a step keeps the parameter count.
- The actor loss, including its `lmbda = alpha / mean|Q|` scaling, is left out. Its value is the opaque `actorLoss`.
- `soft_update` lives in `corl/shared/utils`, which is not part of this model. `Polyak.SoftUpdate` uses the standard rule `target <- tau * source + (1 - tau) * target` on every parameter.
- `torch.randn_like` and `uuid.uuid4()` become inputs (`gauss`, `uuid`). The `device` argument and tensor placement are left out.
- Floating point is modelled as exact reals. There is no rounding, NaN or infinity. An empty batch, for which the mean squared error would be NaN, is excluded by the `requires` of `TD3BC.TrainStep`.
- TD3BC.TrainStep: shape errors inside the forward passes are not modelled. These are `torch.cat` in the critic (line 158) and the critics and actor applied at lines 221-222, 227-228 and 243-244. Only the target actor's width check is an outcome.
- TD3BC.TrainStep: broadcasting is only modelled as an exact shape match. A target actor output of width 1 would broadcast in torch but counts as `ShapeMismatch` here.
- The critics' value estimates are one real per transition. A batch's tensors are modelled as a sequence of transitions.
- TD3BC.Restore: torch's strict load checks each tensor's shape and raises on missing or unexpected keys. The model compares only each network's flattened parameter count, so a same-size tensor of another shape is accepted, and keys are not modelled.
- TD3BC.Restore: torch copies the tensors that match before raising on a mismatch. The model leaves the failing network (and, for critic 1, the whole state) unchanged.
- TD3BC.Restore: the optimisers' own state-dict validation, and the aliasing between returned state dicts and live tensors, are not captured.
- Config.TrainConfig: only the fields `__post_init__` reads or writes are kept. The remaining fields (device, seeds, scales, frequencies, TD3 hyperparameters and so on) are plain values used by the driver. `data_volume`'s default `5e6` is a float in Python and is kept as the real 5000000.0. `guidance_target_multiple`'s default is the integer `2` (annotated `float`) and is kept as the real 2.0.
- Config.RunName: `str(uuid.uuid4())` always has 36 characters. The model accepts any text and keeps Python's slicing for shorter ones.
