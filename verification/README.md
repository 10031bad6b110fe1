# Assistive-Gym pose optimisation: a Dafny model

Assistive-Gym looks for poses of a simulated human body. Each pose must reach a
set of target points near the right hand. A black-box evolutionary optimizer
(CMA-ES) proposes joint-angle vectors. Each candidate is applied to the body
and scored by `cost_fn`: the reach distance, plus the reciprocal of the arm's
manipulability, minus a hundredth of the potential-energy change against a
reference pose, plus 10 for each new self- or environment-collision. The
training run keeps the optimizer's best vector for every target (`actions`).
It also tracks which target had the lowest compared cost. A batch layer
enumerates every (person, pose file, object) job and reports a status string
for each.

This project models that core:

- `geometry.dfy` (`Geometry`): 3-vectors.
- `energy.dfy` (`Energy`): the link-position snapshot and the potential-energy
  change between two snapshots.
- `cost.dfy` (`Cost`): the collision flags and `cost_fn`.
- `sampling.dfy` (`Sampling`): target-point sampling and the debugging target.
- `training.dfy` (`Training`): the initial guess and the per-candidate
  evaluation (set the pose, score it, restore the pose). It also holds the
  per-target loop, the `actions` table and the best-target tracker.
- `batch.dfy` (`BatchTrain`): the job enumeration and the status string.
- `options.dfy` (`Options`): an option type.

The loops of the source are methods with loops:

- `get_link_positions`, `cal_energy_change` and `uniform_sample`.
- The candidate, generation and target loops of `train`.
- The three nested loops of `get_dynamic_configs`. The inner two are split
  into helper methods.

Each method is proved against a specification function or a pointwise
contract. The properties are proved as lemmas about those functions. The human body is a
class, `Human`. Its joint angles are set for each candidate and restored after
scoring, as in the source.

The simulator and the optimizer are inputs:

- A target's run (`TargetRun`) carries the reference observations taken
  before its loop.
- It carries the populations in the order the optimizer asked for them. Each
  candidate comes with what the engine reports for that pose: link positions,
  contacts, distance and manipulability.
- It carries the optimizer's best vector at the end.
- Link masses are a sequence indexed by link index + 1, so the base mass comes
  first.
- The random draws and the sines and cosines of the drawn angles are inputs to
  `uniform_sample`.

Points of `train` the model states as the code has them:

- `train` compares `cost`, the cost of the last evaluated candidate, not the
  optimizer's best (train.py:302, 326). `cost` carries over from one target
  to the next, starting at 0.
- `train` keeps `best_action_idx` in a local and returns only `env, actions`.
  `Train` also returns the index so that it can be stated.
- Two places where the code evidently does not do what it intends are
  recorded under Findings. Each as-written behaviour is a member of its own.
  The training loop of the model uses the corrected behaviour.

## Model

| member | source | states |
|---|---|---|
| Energy.GetLinkPositions | assistive_gym/train.py:84-90 | One entry per link index -1 .. numJoints-1, base first: numJoints + 1 entries, entry k being the engine's position of link k - 1 |
| Energy.CalEnergyChange | assistive_gym/train.py:92-120 | The accumulation loop as written equals `EnergyChange`: the sum over link indices i = -1 .. n-2 of mass(i) * g * (z_final - z_initial), both z read at list position i with Python negative indexing; it requires exactly the list lengths for which no IndexError is raised |
| Energy.EnergyChangeZeroWhenHeightsUnchanged | assistive_gym/train.py:101-117 | Snapshots with equal heights give zero energy change, whatever x and y are |
| Energy.EnergyChangeAntisymmetric | assistive_gym/train.py:101-117 | Swapping the two snapshots is again indexable and negates the energy change |
| Energy.EnergyChangeBySlot | assistive_gym/train.py:101-117 | For snapshots with one entry per link, the loop reads every list position exactly once and pairs position j with the mass of the next link, and the last position with the base mass |
| Energy.EnergyChangeOfSnapshots | assistive_gym/train.py:84-120 | Applied to snapshots taken by `get_link_positions`, the as-written sum charges the mass of link i with the height change of link i - 1, and the base mass with that of the last link |
| Energy.AsWrittenEnergyRaiseOneLink | assistive_gym/train.py:101-117 | As written, raising list position j by h changes the energy by `SlotMass(masses, j) * g * h`, not by the mass stored at j |
| Energy.ShiftedPairingCounterexample | assistive_gym/train.py:101-117 | Base mass 1 and link mass 2, base raised by 1: the code yields 2g where the formula intends g |
| Energy.CalIntendedEnergyChange | assistive_gym/train.py:92-120 | The corrected loop, which reads list position i + 1 for link i, equals `IntendedEnergyChange`, the sum of mass * g * (z_final - z_initial) over every link paired with its own entry |
| Energy.IntendedEnergyOfSnapshots | assistive_gym/train.py:84-120 | Applied to snapshots taken by `get_link_positions`, the corrected sum charges every link's mass, the base included, with that same link's height change |
| Energy.IntendedEnergyZeroWhenHeightsUnchanged | assistive_gym/train.py:114-117 | Unchanged heights give zero corrected energy change |
| Energy.IntendedEnergyRaiseOneLink | assistive_gym/train.py:114-117 | Raising one link by h changes the corrected energy by that link's mass * g * h |
| Cost.IsNewCollision | assistive_gym/train.py:295-298 | A collision flag is raised exactly when the query reports strictly more contacts than the reference query of the current target |
| Cost.EqualCountIsNoCollision | assistive_gym/train.py:296-298 | Equal contact counts never raise the flag |
| Cost.ExtraContactIsCollision | assistive_gym/train.py:296-298 | One contact more than the reference always raises the flag |
| Cost.CostFn | assistive_gym/train.py:122-136 | Returns (cost, m, dist) with cost = dist + 1/m - energyChange/100 + 10 per true collision flag; requires m != 0 |
| Cost.CollisionFlagAddsPenalty | assistive_gym/train.py:129-133 | Each flag adds exactly 10 to the cost, independently of the other flag |
| Cost.CostMonotoneInDistance | assistive_gym/train.py:129 | The cost grows with the distance, by exactly the distance difference |
| Cost.CostAntitoneInEnergyChange | assistive_gym/train.py:129 | A larger energy change never raises the cost |
| Cost.CostAntitoneInManipulability | assistive_gym/train.py:129 | A larger positive manipulability never raises the cost |
| Sampling.OffsetLength | assistive_gym/train.py:22-29 | The spherical-to-Cartesian offset of a valid draw has length r |
| Sampling.SampleInShellOctant | assistive_gym/train.py:21-35 | A sampled point lies between radius/2 and radius from the anchor, and no coordinate is below the anchor's |
| Sampling.UniformSample | assistive_gym/train.py:12-36 | Returns num_samples points, point i being the anchor plus the offset of draw i |
| Sampling.GenerateTargetPoints | assistive_gym/train.py:155-162 | Ten points around the right hand; for valid draws each lies at a distance between 0.25 and 0.5 from it |
| Sampling.SingleTarget | assistive_gym/train.py:147-152 | The debugging target is the end-effector position moved by (+0.2, -0.2, +0.2) |
| Sampling.SingleTargetTranslates | assistive_gym/train.py:147-152 | Moving the end effector moves the debugging target by the same displacement |
| Training.InitialGuess | assistive_gym/train.py:165-172 | Without a target, the zero vector with one entry per controllable joint; with a target, the inverse-kinematics solution |
| Training.AsWrittenInitialBestCostIsThree | assistive_gym/train.py:259 | `10 ^ 9` evaluates to 3 |
| Training.TrackBestNoImprovement | assistive_gym/train.py:326-328 | If no cost is below the starting threshold, the tracked best stays at its start, index 0 |
| Training.TrackBestIsFirstMinimum | assistive_gym/train.py:326-328 | If some cost is below the threshold, the tracked index holds the minimum cost and is the first index that does: strict less-than keeps the earlier target on ties |
| Training.Evaluate | assistive_gym/train.py:291-302 | A candidate's record: the energy change against the reference snapshot (corrected pairing), the distance and manipulability passed through, and the cost formula with 10 per collision flag against the reference contact counts |
| Training.EvaluateAtReferencePose | assistive_gym/train.py:291-302 | A candidate with the reference heights and contact counts costs exactly dist + 1/m |
| Training.ComparedCostIsLastCandidate | assistive_gym/train.py:302-326 | The cost compared for a target is the cost of the last candidate of its last population |
| Training.BestIndexOfTraining | assistive_gym/train.py:257-328 | With the corrected start 10**9, the best index is 0 when no compared cost is below 10**9, and otherwise the first target with the minimum compared cost (as written, from 3, `TrackBestNoImprovement` and `TrackBestIsFirstMinimum` apply with threshold 3) |
| Training.Human.constructor | assistive_gym/train.py:262 | The body starts with the given joint angles |
| Training.Human.SetJointAngles | assistive_gym/train.py:291 | Setting the joint angles replaces them |
| Training.EvaluatePopulation | assistive_gym/train.py:289-310 | One fitness value per candidate, each its `Evaluate` cost; `cost` ends as the last candidate's cost; the body ends restored to the original joint angles |
| Training.OptimizeTarget | assistive_gym/train.py:263-321 | `cost` after a target follows every evaluated candidate in order, and the body ends in the optimizer's best pose |
| Training.ActionsHoldBestVectors | assistive_gym/train.py:321 | The keys of `actions` are exactly the target indices, each mapped to that target's best vector |
| Training.TrainStep | assistive_gym/train.py:302-328 | One more target: its compared cost continues from the previous `cost`, and the tracker replaces the best only on a strictly smaller cost |
| Training.Train | assistive_gym/train.py:247-336 | `actions` maps exactly the indices 0 .. n-1 to each target's best vector; the best index is the tracker over the compared costs starting from 10**9; the body ends in the last target's best pose, and is untouched when there is no target |
| Training.XorThresholdCounterexample | assistive_gym/train.py:259 | Costs 5 and 4: starting from 3 the best index stays 0, starting from 10**9 it is 1 |
| BatchTrain.SmplPathShape | batch_train.py:45 | A pose-file path is the data directory, the person and a slash, the pose name and `.pkl` |
| BatchTrain.SmplPathInjective | batch_train.py:45 | For one person, different pose names give different paths |
| BatchTrain.AppendObjectConfigs | batch_train.py:44-47 | The innermost loop appends one job per object, in order, for a fixed person and pose |
| BatchTrain.AppendPersonConfigs | batch_train.py:43-47 | The middle loop appends one object block per pose file, in order |
| BatchTrain.EnumerateConfigs | batch_train.py:40-48 | The outer loop yields the enumeration `Configs`: person outermost, object innermost |
| BatchTrain.ConfigsLength | batch_train.py:40-48 | There are |persons| * |files| * |objects| jobs |
| BatchTrain.ConfiguredCount | batch_train.py:15-26 | The configured lists (11 persons, 45 pose files, 3 objects) give 1485 jobs |
| BatchTrain.GetDynamicConfigs | batch_train.py:40-48 | `get_dynamic_configs` returns the enumeration of the configured lists, 1485 jobs |
| BatchTrain.ObjectBlockAt | batch_train.py:44-47 | Within a pose's block, position l holds objects[l] |
| BatchTrain.FileBlockAt | batch_train.py:43-47 | Within a person's block, position j * |objects| + l holds files[j] and objects[l] |
| BatchTrain.ConfigsBlockAt | batch_train.py:42-47 | Block i of |files| * |objects| jobs is person i's block, so the job at i * |files| * |objects| + j * |objects| + l combines persons[i], files[j] and objects[l] |
| BatchTrain.ConfigsMembers | batch_train.py:40-48 | A job occurs in the enumeration exactly when it combines a listed person, a listed pose file of that person and a listed object |
| BatchTrain.ConfigsDistinct | batch_train.py:40-48 | Duplicate-free lists give a duplicate-free enumeration |
| BatchTrain.ConfigsExactlyOnce | batch_train.py:40-48 | With duplicate-free lists, every job of the product occurs exactly once and nothing else occurs |
| BatchTrain.DoTrain | batch_train.py:52-56 | The status is `Done training for ` followed by person, pose path and object separated by single spaces |
| BatchTrain.StatusRoundTrip | batch_train.py:56 | When person and pose path contain no space, the status string determines the job |
| BatchTrain.StatusesRoundTrip | batch_train.py:40-56 | Every job enumerated from space-free person ids and pose names reports a status that determines it |

## Left out

- The physics engine is not modelled. That covers pybullet queries, link states, dynamics info, inverse dynamics, inverse kinematics, manipulability and collision queries. Their results are inputs.
- The CMA-ES optimizer (`init_optimizer`, ask/tell/stop, `result_pretty`) is not modelled. Each target's populations and best vector are inputs.
- `eulidean_distance` is not modelled: the distance is an input of `cost_fn`.
- Randomness and trigonometry are not modelled. The draws and the sines and cosines of `uniform_sample` are inputs. `ValidDraw` states what the generator guarantees.
- Floating point is not modelled: all arithmetic is on exact reals, so rounding and NaN or infinity are left out.
- Cost.CostFn: requires m != 0. The source divides by `m` unguarded, so a zero manipulability raises in Python or yields infinity with numpy. The model excludes that input.
- Training.Train: the per-iteration means (`mean_cost`, `mean_dist`, `mean_m`, `mean_evolution`) are not modelled. They only feed plots.
- I/O is not modelled: plotting, `draw_point`, `render`, printing, pickling, `env.render`/`disconnect` and the command-line entry.
- Training and setup helpers are not part of this model: `make_env`, `step_forward`, `debug_solution` and `test_collision`.
- `solve_ik` is an input of `InitialGuess` (`ikSolution`).
- The process pool and `mp_train` of the batch layer are not modelled. `DoTrain` models only the status string that `do_train` returns.
- The static configs of the batch layer are not modelled: ENV, SEED, SAVE_DIR, END_EFFECTOR and the RENDER_GUI, SIMULATE_COLLISION and ROBOT_IK flags are only passed through to `mp_train`, and NUM_WORKERS only sizes the process pool.

## Findings

| source | as written | input that shows it | evidently intended | confidence | as-written member | corrected member |
|---|---|---|---|---|---|---|
| assistive_gym/train.py:101-117 | `cal_energy_change` indexes the snapshot lists with the link index i. `get_link_positions` stores link i at position i + 1. So link i's mass is paired with link i - 1's height, and the base mass with the last link's height | a base of mass 1 and one link of mass 2, with the base raised by 1: the code gives 2g instead of g | pair each link's mass with that link's own height change | high, not executed | Energy.ShiftedPairingCounterexample | Energy.CalIntendedEnergyChange |
| assistive_gym/train.py:259 | `best_cost = 10 ^ 9` is bitwise exclusive-or, so the start is 3; targets whose compared cost is 3 or more are never chosen | compared costs 5 and 4: the best index stays 0 although target 1 is cheaper | start from 10**9, so the cheapest target is chosen | high, not executed | Training.XorThresholdCounterexample | Training.BestIndexOfTraining |
