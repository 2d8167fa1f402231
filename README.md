# CartPole runner: the training orchestrator

This project models `train_main` of `cartpole_runner.py`. That function runs
deep Q-learning on the CartPole environment and keeps the books:

- It plays up to 3000 episodes.
- On every environment step it asks the model for an action and steps the
  environment.
- It stores the transition in the memory bank. Once more than 5000
  transitions were stored before the step, it fetches a minibatch of 128
  and trains the model on it.
- It counts steps and sums `int(reward)` for each episode.
- After an episode it appends the episode total to a trailing window and
  computes the moving average, then trims the window to 100 totals.
- It logs `(episode, steps, epsilon, total_reward, moving_average)` and stops
  as soon as the moving average is strictly above 150.

The environment and the model are opaque. What they answer on each step
(action, epsilon, next observation, reward, done flag) is an input of the
model (`StepInput`, grouped per episode in `EpisodeInput`). Every call made
inside the episode loop, except `env.render()`, is recorded, in order, in a
trace of `Call`s:

- `env.reset`, `model.take_action`, `env.step` and `memory_bank.add`;
- `memory_bank.get_mini_batch` and `model.train_minibatch`.

The code is imperative, and so is the model:

- `PlayEpisode` is the `while not done` loop, over local variables.
- `UpdateWindow` is the end-of-episode window update.
- `RunEpisode` is one iteration of the episode loop.
- `EpisodeStep` is that iteration together with the `break` test.
- `TrainMain` is the `for` loop with its `break`.

Each method is proved against pure specification functions. `Run(eps, k)` is
the state after `k` episodes, and `EpisodesRun` and `Stopped` give the
stopping rule. Lemmas then state what that state means:

- the reward window holds the last 100 totals;
- each log record holds the mean of the last 101 totals;
- `current_index` counts the stored transitions;
- the memory bank receives every transition, in order;
- training happens once per step after the first 5001;
- the stopping threshold relates to the scores of individual episodes.

Two behaviours of the code are easy to misstate; the model follows the code:

- **The moving average covers up to 101 totals, not 100.** `np.mean` runs
  after the append and before the `popleft` (cartpole_runner.py:78-81). So
  from the 101st episode on, the logged average and the stopping test use
  101 totals. `RunLastRecord` states this.
- **The training gate counts every transition ever stored.**
  `current_index` counts all transitions, not the memory bank's current
  length, and the test is a strict `>` (cartpole_runner.py:64). So the first
  training happens on the 5002nd step of the run. `FirstTraining` and
  `RunTrace` state this.

## Model

| member | source | states |
|---|---|---|
| CartpoleRunner.TrainMain | cartpole_runner.py:35-89 | The final state (current_index, reward window, log, trace) is that of the first n episodes, where n is one past the first episode whose moving average is above 150, or 3000 if there is none (`Stopped`, `EpisodesRun`) |
| CartpoleRunner.EpisodeStep | cartpole_runner.py:52-89 | One pass of the episode loop, the `break` test included, takes the state after the first `episode` episodes to the state after `episode + 1`. It stops exactly when the moving average just logged is strictly above 150. The records already in the log stay as they were, so if none of them was above 150, none is after the step |
| CartpoleRunner.RunEpisode | cartpole_runner.py:51-83 | One iteration of the episode loop turns the state into `AfterEpisode`. It returns the moving average that the stopping test reads, which is the one just logged |
| CartpoleRunner.PlayEpisode | cartpole_runner.py:52-76 | The inner loop runs up to and including the first step whose `done` is set. It returns that step count and the sum of `int(reward)` over those steps. It returns the epsilon of the last `take_action` and `current_index` advanced by one per step. Its calls are a reset, then take_action/step/add per step, plus get_mini_batch/train_minibatch exactly when `current_index > 5000` before the step |
| CartpoleRunner.UpdateWindow | cartpole_runner.py:78-81 | The moving average is the mean of the window with the new total appended, taken before the trim. The kept window is the last 100 totals |
| CartpoleRunner.Trunc | cartpole_runner.py:72 | `int(reward)` truncates toward zero. For non-negative rewards the result is at most the reward and within 1 of it. For negative rewards it is at least the reward and within 1 of it |
| CartpoleRunner.EpisodeLength | cartpole_runner.py:53-57 | The number of loop iterations is at least 1. It is the index of the first step with `done` set, plus one |
| CartpoleRunner.TransitionAt | cartpole_runner.py:58-62 | Stored transition k starts from the reset observation (k = 0) or from the previous step's `new_state`. It carries step k's action, reward, new state and done flag |
| CartpoleRunner.StepGate | cartpole_runner.py:64-69 | A step calls train_minibatch exactly when `current_index > 5000` before it |
| CartpoleRunner.StepStored | cartpole_runner.py:58-69 | One step hands exactly its own transition to `memory_bank.add` |
| CartpoleRunner.StepCounts | cartpole_runner.py:58-73 | One step makes no reset. It makes one get_mini_batch and one train_minibatch exactly when the stored-transition count before it is above 5000 |
| CartpoleRunner.StepsStored | cartpole_runner.py:57-73 | The steps of an episode store their transitions, in order |
| CartpoleRunner.StepsCounts | cartpole_runner.py:57-73 | The steps of an episode train once for each step that finds more than 5000 stored transitions |
| CartpoleRunner.EpisodeStored | cartpole_runner.py:52-73 | An episode stores exactly its `EpisodeTransitions`, in order |
| CartpoleRunner.EpisodeCounts | cartpole_runner.py:52-73 | An episode resets the environment once. It trains `Trainings(start + steps) - Trainings(start)` times |
| CartpoleRunner.RunCalls | cartpole_runner.py:51-73 | The trace after k episodes is the concatenation of the episodes' calls. Each episode's gate starts from the step count of the episodes before it |
| CartpoleRunner.CallsStored | cartpole_runner.py:51-73 | The memory bank receives the transitions of all episodes, in order |
| CartpoleRunner.StoredCount | cartpole_runner.py:57-73 | One transition is stored per environment step |
| CartpoleRunner.CallsCounts | cartpole_runner.py:51-73 | The environment is reset once per episode. get_mini_batch and train_minibatch each happen `Trainings(steps so far)` times, that is once per step after the first 5001 |
| CartpoleRunner.RunTrace | cartpole_runner.py:47-73 | After k episodes the memory bank has received every transition, in order. `current_index` equals the number stored. There are k resets, and the training count is `Trainings(current_index)` |
| CartpoleRunner.FirstTraining | cartpole_runner.py:64-73 | A train_minibatch call occurs in the first k episodes exactly when they took more than 5001 steps |
| CartpoleRunner.RunWindow | cartpole_runner.py:47-81 | After k episodes `reward_list` holds the last min(k, 100) totals, oldest first. `current_index` is the number of steps taken |
| CartpoleRunner.RunLastRecord | cartpole_runner.py:71-83 | The log record of episode k-1 holds its index, step count, last epsilon and total. Its moving average is the mean of the last min(k, 101) totals |
| CartpoleRunner.RunLog | cartpole_runner.py:49-83 | The log after k episodes holds one record per episode, in order, each as `Record` defines it |
| CartpoleRunner.FirstStop | cartpole_runner.py:51-89 | The episode loop with its `break` runs up to and including the first flagged episode, or all of them. No earlier episode is flagged |
| CartpoleRunner.StopFlagsLogged | cartpole_runner.py:78-89 | The stop flag of episode i is set exactly when the moving average logged after episode i is strictly above 150 |
| CartpoleRunner.EpisodesRunUnique | cartpole_runner.py:51-89 | Only one run length satisfies the stopping rule |
| CartpoleRunner.StopRule | cartpole_runner.py:83-89 | Say every logged moving average but the last is at most 150, and the last is above 150 unless 3000 episodes ran. Then the run length is the one the stopping rule gives |
| CartpoleRunner.UnitRewards | cartpole_runner.py:55-72 | With CartPole's reward of 1.0 per step, an episode's total reward equals its step count |
| CartpoleRunner.MeanBound | cartpole_runner.py:79 | A bound on every averaged total is a bound on the mean, from above and from below |
| CartpoleRunner.ConvergedNeedsHighScore | cartpole_runner.py:78-89 | The run stops after episode i only if some episode among max(0, i-100) .. i scored above 150 |
| CartpoleRunner.HighScoresConverge | cartpole_runner.py:78-89 | If every episode among max(0, i-100) .. i scored above 150, the run stops after episode i |
| CartpoleRunner.ConstantAverage | cartpole_runner.py:78-83 | If every episode so far scored the same total c, the logged moving average is exactly c |

## Left out

- The gym environment, the DQN/DDQN models and the memory bank's internals
  are not modelled. Their answers are inputs, and the calls to them are only
  recorded in the trace. Minibatch sampling, the training itself and epsilon
  decay live in code that is not part of this model.
- Model selection from `args.model` (cartpole_runner.py:39-44) is left out.
  An unknown name leaves `model` unbound, and the source then fails on the
  first `take_action`.
- Rendering (`args.render_env`, `args.render_freq`), the logger line and the
  end-of-run I/O are left out. The I/O is the CSV of the log, the memory-bank
  save and the weights save. All of it is output only and changes no state
  that the model tracks.
- The module-level `memory_bank` (cartpole_runner.py:32) is never used by
  `train_main`, which builds its own.
- `np.mean` works on 64-bit floats; the model uses exact rational
  arithmetic. Rewards are exact reals too, so NaN and infinite rewards are
  not modelled, and neither is `int()` raising on them.
- TrainMain: requires one `EpisodeInput` per possible episode (3000), each
  of which eventually reports `done`. Without that the source's
  `while not done` never ends, so the model covers only runs that terminate.
- The `info` value returned by `env.step` is ignored by the source and is not
  modelled.
