/*
 * Model of the training orchestrator `train_main` of the CartPole runner.
 *
 * The orchestrator drives up to `NEpisodes` episodes. Every environment step
 * asks the model for an action, steps the environment, stores the transition
 * in the memory bank and, once more than `MemoryBankSize` transitions were
 * stored before the step, fetches a minibatch and trains on it. After each
 * episode it appends the episode's total reward to a trailing window, records
 * the moving average in the training log and stops early once that average
 * is strictly above `SuccessThreshold`.
 *
 * The environment and the model are opaque: what they answer on each step
 * (action, epsilon, next observation, reward, done flag) is an input of the
 * model, and every call made inside the episode loop, except rendering, is
 * recorded, in order, in a trace of `Call`s.
 */
module CartpoleRunner {

  // ---------------------------------------------------------------------------
  // Configuration
  // ---------------------------------------------------------------------------

  /** Maximum number of episodes of a run. */
  const NEpisodes: nat := 3000
  /** Capacity of the memory bank; also the training gate's threshold. */
  const MemoryBankSize: nat := 5000
  /** Size of every minibatch fetched from the memory bank. */
  const BatchSize: nat := 128
  /** Number of episode totals kept in the reward window after the trim. */
  const WindowSize: nat := 100
  /** The run stops once the moving average is strictly above this value. */
  const SuccessThreshold: real := 150.0

  // ---------------------------------------------------------------------------
  // Data model
  // ---------------------------------------------------------------------------

  /** An observation of the environment (a vector of floats). */
  type Observation = seq<real>

  /** The record handed to the memory bank on every step. */
  datatype Transition = Transition(state: Observation, action: int, reward: real,
                                   newState: Observation, done: bool)

  /** One call of the orchestrator to the environment, the model or the memory bank. */
  datatype Call =
    | EnvReset                                        // env.reset()
    | TakeAction(state: Observation, episode: nat)    // model.take_action(state, episode)
    | EnvStep(action: int)                            // env.step(action)
    | Add(transition: Transition)                     // memory_bank.add(...)
    | GetMiniBatch(size: nat)                         // memory_bank.get_mini_batch(batch_size)
    | TrainMinibatch                                  // model.train_minibatch(minibatch)

  /**
   * What the collaborators answer on one step: the model's action and the
   * epsilon it used, then the environment's next observation, reward and
   * done flag.
   */
  datatype StepInput = StepInput(action: int, epsilon: real, newState: Observation,
                                 reward: real, done: bool)

  /** What the environment produces for one episode: the observation returned
      by the reset and the stream of step answers that follows it. */
  datatype EpisodeInput = EpisodeInput(initial: Observation, steps: seq<StepInput>)

  /** One row of the training log. */
  datatype LogRecord = LogRecord(episode: nat, steps: nat, epsilon: real,
                                 totalReward: int, movingAverage: real)

  /** The variables of `train_main` that live across episodes. */
  datatype RunState = RunState(currentIndex: nat, rewardList: seq<int>,
                               trainLog: seq<LogRecord>, calls: seq<Call>)

  // ---------------------------------------------------------------------------
  // Arithmetic: int(reward), sums, means and the trailing window
  // ---------------------------------------------------------------------------

  /** Python's `int(x)` on a float: truncation toward zero. */
  function Trunc(x: real): (n: int)
    ensures 0.0 <= x ==> 0 <= n && n as real <= x < n as real + 1.0
    ensures x < 0.0 ==> n <= 0 && n as real - 1.0 < x <= n as real
  {
    if x >= 0.0 then x.Floor else -((-x).Floor)
  }

  /** Sum of the first `k` elements of `s`. */
  function Sum(s: seq<int>, k: nat): int
    requires k <= |s|
  {
    if k == 0 then 0 else Sum(s, k - 1) + s[k - 1]
  }

  /** Exact arithmetic mean, standing for `np.mean`. */
  function Mean(s: seq<int>): real
    requires |s| > 0
  {
    Sum(s, |s|) as real / |s| as real
  }

  /** The last `m` elements of `s` (all of `s` when it is shorter). */
  function Last(s: seq<int>, m: nat): (r: seq<int>)
    ensures |r| == if |s| < m then |s| else m
  {
    if |s| <= m then s else s[|s| - m..]
  }

  /**
   * The moving average recorded after an episode, given the totals of all
   * episodes so far: the mean of the last WindowSize + 1 of them.
   */
  function MovingAverage(totals: seq<int>): real
    requires |totals| > 0
  {
    Mean(Last(totals, WindowSize + 1))
  }

  // ---------------------------------------------------------------------------
  // One episode
  // ---------------------------------------------------------------------------

  /** The environment eventually reports `done` in this step stream. */
  predicate Ends(steps: seq<StepInput>)
  {
    EndsFrom(steps, 0)
  }

  /** Some step from index `i` on has its done flag set. */
  predicate EndsFrom(steps: seq<StepInput>, i: nat)
    decreases |steps| - i
  {
    i < |steps| && (steps[i].done || EndsFrom(steps, i + 1))
  }

  /** Number of iterations of `while not done`: up to and including the first
      step whose done flag is set. */
  function EpisodeLength(steps: seq<StepInput>): (n: nat)
    requires Ends(steps)
    ensures 1 <= n <= |steps|
    ensures steps[n - 1].done
    ensures forall i :: 0 <= i < n - 1 ==> !steps[i].done
  {
    FirstDone(steps, 0)
  }

  /** One past the index of the first step from `i` on whose done flag is set. */
  function FirstDone(steps: seq<StepInput>, i: nat): (n: nat)
    requires EndsFrom(steps, i)
    ensures i < n <= |steps|
    ensures steps[n - 1].done
    ensures forall j :: i <= j < n - 1 ==> !steps[j].done
    decreases |steps| - i
  {
    if steps[i].done then i + 1 else FirstDone(steps, i + 1)
  }

  /** Sum of `int(reward)` over the first `k` steps. */
  function SumRewards(steps: seq<StepInput>, k: nat): int
    requires k <= |steps|
  {
    if k == 0 then 0 else SumRewards(steps, k - 1) + Trunc(steps[k - 1].reward)
  }

  /** The `total_reward` of an episode. */
  function EpisodeTotal(ep: EpisodeInput): int
    requires Ends(ep.steps)
  {
    SumRewards(ep.steps, EpisodeLength(ep.steps))
  }

  /** The epsilon returned by the episode's last `take_action`. */
  function LastEpsilon(ep: EpisodeInput): real
    requires Ends(ep.steps)
  {
    ep.steps[EpisodeLength(ep.steps) - 1].epsilon
  }

  /**
   * The transitions stored during a sequence of steps that starts from
   * `initial`: each step's transition starts where the previous one ended.
   */
  function Transitions(initial: Observation, steps: seq<StepInput>): (ts: seq<Transition>)
    ensures |ts| == |steps|
    decreases |steps|
  {
    if steps == [] then []
    else
      [Transition(initial, steps[0].action, steps[0].reward, steps[0].newState, steps[0].done)] +
      Transitions(steps[0].newState, steps[1..])
  }

  /**
   * Transition `k` records the observation the step started from (the reset
   * observation for the first step, the previous step's new observation
   * after that) and what step `k` answered.
   */
  lemma {:induction false} TransitionAt(initial: Observation, steps: seq<StepInput>, k: nat)
    requires k < |steps|
    ensures Transitions(initial, steps)[k] ==
            Transition(if k == 0 then initial else steps[k - 1].newState,
                       steps[k].action, steps[k].reward, steps[k].newState, steps[k].done)
    decreases k
  {
    if k > 0 {
      TransitionAt(steps[0].newState, steps[1..], k - 1);
    }
  }


  /** The calls made by one step whose transition is `t`, when `index`
      transitions were stored before it. */
  function StepCalls(t: Transition, episode: nat, index: nat): seq<Call>
  {
    [TakeAction(t.state, episode), EnvStep(t.action), Add(t)] +
    if index > MemoryBankSize then [GetMiniBatch(BatchSize), TrainMinibatch] else []
  }

  /** The calls made by the steps of the first `k` transitions of `ts`, the
      first of which sees `start` stored transitions. */
  function StepsCalls(ts: seq<Transition>, k: nat, episode: nat, start: nat): seq<Call>
    requires k <= |ts|
  {
    if k == 0 then []
    else StepsCalls(ts, k - 1, episode, start) + StepCalls(ts[k - 1], episode, start + k - 1)
  }

  /** The calls made by episode number `episode`, which begins after `start`
      transitions were stored. */
  function EpisodeCalls(ep: EpisodeInput, episode: nat, start: nat): seq<Call>
    requires Ends(ep.steps)
  {
    [EnvReset] +
    StepsCalls(Transitions(ep.initial, ep.steps), EpisodeLength(ep.steps), episode, start)
  }

  /** The transitions handed to `memory_bank.add` in a trace, in order. */
  function Stored(cs: seq<Call>): seq<Transition>
  {
    if cs == [] then []
    else (if cs[0].Add? then [cs[0].transition] else []) + Stored(cs[1..])
  }

  /** Number of occurrences of call `c` in a trace. */
  function Count(cs: seq<Call>, c: Call): nat
  {
    if cs == [] then 0 else (if cs[0] == c then 1 else 0) + Count(cs[1..], c)
  }

  /** The transitions an episode stores: one per iteration of `while not done`. */
  function EpisodeTransitions(ep: EpisodeInput): (ts: seq<Transition>)
    requires Ends(ep.steps)
    ensures |ts| == EpisodeLength(ep.steps)
  {
    Transitions(ep.initial, ep.steps)[..EpisodeLength(ep.steps)]
  }

  /**
   * Number of training steps among the first `n` environment steps of a
   * run: the step that finds `current_index` == j trains when
   * j > MemoryBankSize, so the first training happens on step
   * MemoryBankSize + 2.
   */
  function Trainings(n: nat): nat
  {
    if n > MemoryBankSize + 1 then n - (MemoryBankSize + 1) else 0
  }

  // ---------------------------------------------------------------------------
  // A whole run
  // ---------------------------------------------------------------------------

  /** Every episode the environment can produce ends. */
  predicate WellFormed(eps: seq<EpisodeInput>)
  {
    forall i :: 0 <= i < |eps| ==> Ends(eps[i].steps)
  }

  /** The bookkeeping at the end of episode number `episode`, given the state
      before the episode. */
  function AfterEpisode(r: RunState, ep: EpisodeInput, episode: nat): RunState
    requires Ends(ep.steps)
  {
    var total := EpisodeTotal(ep);
    var appended := r.rewardList + [total];
    RunState(r.currentIndex + EpisodeLength(ep.steps),
             Last(appended, WindowSize),
             r.trainLog + [LogRecord(episode, EpisodeLength(ep.steps), LastEpsilon(ep),
                                     total, Mean(appended))],
             r.calls + EpisodeCalls(ep, episode, r.currentIndex))
  }

  /** The state of `train_main` after its first `k` episodes. */
  function Run(eps: seq<EpisodeInput>, k: nat): (r: RunState)
    requires WellFormed(eps) && k <= |eps|
    ensures |r.trainLog| == k
    ensures |r.rewardList| <= WindowSize
  {
    if k == 0 then RunState(0, [], [], [])
    else AfterEpisode(Run(eps, k - 1), eps[k - 1], k - 1)
  }

  /** Number of environment steps taken by the first `k` episodes. */
  function StepsBefore(eps: seq<EpisodeInput>, k: nat): nat
    requires WellFormed(eps) && k <= |eps|
  {
    if k == 0 then 0 else StepsBefore(eps, k - 1) + EpisodeLength(eps[k - 1].steps)
  }

  /** The transitions stored by the first `k` episodes, in order. */
  function StoredBefore(eps: seq<EpisodeInput>, k: nat): seq<Transition>
    requires WellFormed(eps) && k <= |eps|
  {
    if k == 0 then [] else StoredBefore(eps, k - 1) + EpisodeTransitions(eps[k - 1])
  }

  /** Total rewards of the first `k` episodes, in episode order. */
  function Totals(eps: seq<EpisodeInput>, k: nat): (r: seq<int>)
    requires WellFormed(eps) && k <= |eps|
    ensures |r| == k
  {
    if k == 0 then [] else Totals(eps, k - 1) + [EpisodeTotal(eps[k - 1])]
  }

  /** The log record episode `i` should produce. */
  function Record(eps: seq<EpisodeInput>, i: nat): LogRecord
    requires WellFormed(eps) && i < |eps|
  {
    LogRecord(i, EpisodeLength(eps[i].steps), LastEpsilon(eps[i]), EpisodeTotal(eps[i]),
              MovingAverage(Totals(eps, i + 1)))
  }

  /** The log records of the first `k` episodes. */
  function Records(eps: seq<EpisodeInput>, k: nat): (r: seq<LogRecord>)
    requires WellFormed(eps) && k <= |eps|
    ensures |r| == k
    ensures forall i :: 0 <= i < k ==> r[i] == Record(eps, i)
  {
    if k == 0 then [] else Records(eps, k - 1) + [Record(eps, k - 1)]
  }

  /** The calls of the first `k` episodes, in order. */
  function CallsBefore(eps: seq<EpisodeInput>, k: nat): seq<Call>
    requires WellFormed(eps) && k <= |eps|
  {
    if k == 0 then [] else CallsBefore(eps, k - 1) + EpisodeCalls(eps[k - 1], k - 1, StepsBefore(eps, k - 1))
  }

  /** The moving average logged after episode `i` is strictly above the threshold. */
  predicate Converged(eps: seq<EpisodeInput>, i: nat)
    requires WellFormed(eps) && i < |eps|
  {
    Record(eps, i).movingAverage > SuccessThreshold
  }

  /**
   * The loop over episodes with its `break`: scanning from episode `i`, the
   * number of episodes run is one past the first episode whose flag is set,
   * or all of them when none is.
   */
  function FirstStop(stops: seq<bool>, i: nat): (n: nat)
    requires i < |stops|
    ensures i < n <= |stops|
    ensures n == |stops| || stops[n - 1]
    ensures forall j :: i <= j < n - 1 ==> !stops[j]
    decreases |stops| - i
  {
    if stops[i] || i + 1 == |stops| then i + 1 else FirstStop(stops, i + 1)
  }

  /** For each of the NEpisodes episodes, whether the run would stop after it. */
  function StopFlags(eps: seq<EpisodeInput>): (r: seq<bool>)
    requires WellFormed(eps) && NEpisodes <= |eps|
    ensures |r| == NEpisodes
    ensures forall i :: 0 <= i < NEpisodes ==> r[i] == Converged(eps, i)
  {
    seq(NEpisodes, i requires 0 <= i < NEpisodes => Converged(eps, i))
  }

  /** A run of `n` episodes ends where the stopping rule says. */
  predicate Stopped(eps: seq<EpisodeInput>, n: nat)
    requires WellFormed(eps) && NEpisodes <= |eps|
  {
    1 <= n <= NEpisodes &&
    (n == NEpisodes || Converged(eps, n - 1)) &&
    forall j :: 0 <= j < n - 1 ==> !Converged(eps, j)
  }

  /** Number of episodes of a run. */
  function EpisodesRun(eps: seq<EpisodeInput>): nat
    requires WellFormed(eps) && NEpisodes <= |eps|
  {
    FirstStop(StopFlags(eps), 0)
  }

  // ---------------------------------------------------------------------------
  // The training loop
  // ---------------------------------------------------------------------------

  /**
   * One episode of `train_main`: the environment reset and the
   * `while not done` loop. `index` is `current_index` when the episode
   * starts. Returns the episode's `steps`, `total_reward`, the `e` of its last
   * `take_action`, the new `current_index` and the calls the episode made.
   */
  method PlayEpisode(ep: EpisodeInput, episode: nat, index: nat)
    returns (steps: nat, totalReward: int, e: real, currentIndex: nat, made: seq<Call>)
    requires Ends(ep.steps)
    ensures steps == EpisodeLength(ep.steps)
    ensures totalReward == EpisodeTotal(ep)
    ensures e == LastEpsilon(ep)
    ensures currentIndex == index + steps
    ensures made == EpisodeCalls(ep, episode, index)
  {
    ghost var len := EpisodeLength(ep.steps);
    ghost var ts := Transitions(ep.initial, ep.steps);
    var state := ep.initial;                                  // env.reset()
    made := [EnvReset];
    var done := false;
    steps, totalReward, e, currentIndex := 0, 0, 0.0, index;
    while !done
      invariant 0 <= steps <= len
      invariant done <==> steps > 0 && ep.steps[steps - 1].done
      invariant state == if steps == 0 then ep.initial else ep.steps[steps - 1].newState
      invariant steps > 0 ==> e == ep.steps[steps - 1].epsilon
      invariant totalReward == SumRewards(ep.steps, steps)
      invariant currentIndex == index + steps
      invariant made == [EnvReset] + StepsCalls(ts, steps, episode, index)
      decreases len - steps
    {
      assert ep.steps[len - 1].done;
      ghost var before := StepsCalls(ts, steps, episode, index);
      var input := ep.steps[steps];
      var action := input.action;                             // model.take_action(state, episode)
      e := input.epsilon;
      var newState, reward := input.newState, input.reward;  // env.step(action)
      done := input.done;
      var t := Transition(state, action, reward, newState, done);
      var stepCalls := [TakeAction(state, episode), EnvStep(action), Add(t)];
      state := newState;
      if currentIndex > MemoryBankSize {
        stepCalls := stepCalls + [GetMiniBatch(BatchSize), TrainMinibatch];
      }
      TransitionAt(ep.initial, ep.steps, steps);
      assert stepCalls == StepCalls(ts[steps], episode, currentIndex);
      made := made + stepCalls;
      assert made == [EnvReset] + (before + stepCalls);
      steps := steps + 1;
      totalReward := totalReward + Trunc(reward);
      currentIndex := currentIndex + 1;
    }
  }

  /**
   * The end-of-episode update of `reward_list`: append the episode total,
   * take the mean, then drop the oldest total if more than WindowSize are
   * held. The mean therefore covers up to WindowSize + 1 totals.
   */
  method UpdateWindow(window: seq<int>, total: int) returns (trimmed: seq<int>, movingAverage: real)
    requires |window| <= WindowSize
    ensures movingAverage == Mean(window + [total])
    ensures |trimmed| <= WindowSize
    ensures trimmed == Last(window + [total], WindowSize)
  {
    trimmed := window + [total];
    movingAverage := Mean(trimmed);
    if |trimmed| > WindowSize {
      trimmed := trimmed[1..];
    }
  }

  /**
   * One iteration of the episode loop of `train_main`: play the episode,
   * update the reward window and append the log record. Returns the new
   * state and the moving average the stopping test looks at.
   */
  method RunEpisode(r: RunState, ep: EpisodeInput, episode: nat)
    returns (next: RunState, movingAverage: real)
    requires Ends(ep.steps) && |r.rewardList| <= WindowSize
    ensures next == AfterEpisode(r, ep, episode)
    ensures movingAverage == next.trainLog[|r.trainLog|].movingAverage
  {
    var steps, totalReward, e, currentIndex, made := PlayEpisode(ep, episode, r.currentIndex);
    var rewardList;
    rewardList, movingAverage := UpdateWindow(r.rewardList, totalReward);
    next := RunState(currentIndex, rewardList,
                     r.trainLog + [LogRecord(episode, steps, e, totalReward, movingAverage)],
                     r.calls + made);
  }

  /**
   * One iteration of the episode loop of `train_main`, the `break` test
   * included: from the state after the first `episode` episodes it plays
   * episode `episode` and says whether the loop stops after it, leaving the
   * records already in the log as they were.
   */
  method EpisodeStep(eps: seq<EpisodeInput>, episode: nat, r: RunState)
    returns (next: RunState, stop: bool)
    requires WellFormed(eps) && episode < |eps| && r == Run(eps, episode)
    ensures next == Run(eps, episode + 1)
    ensures stop <==> next.trainLog[episode].movingAverage > SuccessThreshold
    ensures forall j :: 0 <= j < episode ==> next.trainLog[j] == r.trainLog[j]
    ensures (forall j :: 0 <= j < episode ==> r.trainLog[j].movingAverage <= SuccessThreshold) ==>
            forall j :: 0 <= j < episode ==> next.trainLog[j].movingAverage <= SuccessThreshold
  {
    var movingAverage;
    next, movingAverage := RunEpisode(r, eps[episode], episode);
    stop := movingAverage > SuccessThreshold;
    assert next.trainLog == r.trainLog + [next.trainLog[episode]];
  }

  /**
   * `train_main` without its I/O: runs episodes of `eps` until the moving
   * average exceeds the threshold or NEpisodes episodes were played, and
   * returns the final state: `current_index`, the reward window, the
   * training log and the trace of calls.
   */
  method TrainMain(eps: seq<EpisodeInput>) returns (final: RunState)
    requires |eps| == NEpisodes && WellFormed(eps)
    ensures |final.trainLog| <= NEpisodes
    ensures final == Run(eps, |final.trainLog|)
    ensures Stopped(eps, |final.trainLog|)
    ensures |final.trainLog| == EpisodesRun(eps)
  {
    final := RunState(0, [], [], []);
    for episode := 0 to NEpisodes
      invariant final == Run(eps, episode)
      invariant forall j :: 0 <= j < episode ==> final.trainLog[j].movingAverage <= SuccessThreshold
    {
      var stop;
      final, stop := EpisodeStep(eps, episode, final);
      if stop {
        break;
      }
    }
    assert 1 <= |final.trainLog| <= NEpisodes;
    StopRule(eps, |final.trainLog|);
  }

  // ---------------------------------------------------------------------------
  // Lemmas: the reward window and the log
  // ---------------------------------------------------------------------------

  /** Appending a total to the last `m` totals gives the last `m + 1` of the
      extended sequence. */
  lemma WindowAppend(s: seq<int>, x: int, m: nat)
    ensures Last(s, m) + [x] == Last(s + [x], m + 1)
  {
  }

  /** Appending a total and dropping the oldest entry once there are more than
      `m` keeps exactly the last `m` totals. */
  lemma TrimAppend(s: seq<int>, x: int, m: nat)
    ensures Last(Last(s, m) + [x], m) == Last(s + [x], m)
  {
  }

  /**
   * After `k` episodes `reward_list` holds the last min(k, WindowSize)
   * episode totals, oldest first, and `current_index` is the number of steps
   * taken in all episodes so far.
   */
  lemma {:induction false} RunWindow(eps: seq<EpisodeInput>, k: nat)
    requires WellFormed(eps) && k <= |eps|
    ensures Run(eps, k).rewardList == Last(Totals(eps, k), WindowSize)
    ensures |Run(eps, k).rewardList| == if k < WindowSize then k else WindowSize
    ensures Run(eps, k).currentIndex == StepsBefore(eps, k)
  {
    if k > 0 {
      RunWindow(eps, k - 1);
      TrimAppend(Totals(eps, k - 1), EpisodeTotal(eps[k - 1]), WindowSize);
    }
  }

  /**
   * The record of the last of the first `k` episodes: the moving average is
   * the mean of the last min(k, WindowSize + 1) episode totals.
   */
  lemma RunLastRecord(eps: seq<EpisodeInput>, k: nat)
    requires WellFormed(eps) && 0 < k <= |eps|
    ensures Run(eps, k).trainLog[k - 1] == Record(eps, k - 1)
  {
    var r, ep := Run(eps, k - 1), eps[k - 1];
    var before, total := Totals(eps, k - 1), EpisodeTotal(ep);
    assert Run(eps, k).trainLog[k - 1] ==
      LogRecord(k - 1, EpisodeLength(ep.steps), LastEpsilon(ep), total, Mean(r.rewardList + [total]));
    RunWindow(eps, k - 1);
    WindowAppend(before, total, WindowSize);
    assert Totals(eps, k) == before + [total];
    assert Mean(r.rewardList + [total]) == MovingAverage(Totals(eps, k));
  }


  /**
   * The log after `k` episodes holds one record per episode, in episode
   * order: record `i` is the one episode `i` produces.
   */
  lemma {:induction false} RunLog(eps: seq<EpisodeInput>, k: nat)
    requires WellFormed(eps) && k <= |eps|
    ensures Run(eps, k).trainLog == Records(eps, k)
  {
    if k > 0 {
      RunLog(eps, k - 1);
      RunLastRecord(eps, k);
      assert Run(eps, k).trainLog == Run(eps, k - 1).trainLog + [Run(eps, k).trainLog[k - 1]];
    }
  }

  /**
   * Flag `i` is set exactly when the moving average logged after episode `i`
   * is strictly above the threshold.
   */
  lemma StopFlagsLogged(eps: seq<EpisodeInput>, i: nat)
    requires WellFormed(eps) && NEpisodes <= |eps| && i < NEpisodes
    ensures StopFlags(eps)[i] <==> Run(eps, i + 1).trainLog[i].movingAverage > SuccessThreshold
  {
    RunLastRecord(eps, i + 1);
  }

  /** The run length is determined by the stopping rule. */
  lemma EpisodesRunUnique(eps: seq<EpisodeInput>, n: nat)
    requires WellFormed(eps) && NEpisodes <= |eps|
    requires Stopped(eps, n)
    ensures EpisodesRun(eps) == n
  {
  }

  /**
   * The stopping rule read off the log: when every moving average in the
   * log of the first `n` episodes except the last is at most the threshold,
   * and the last is above it unless all NEpisodes episodes ran, the run
   * stopped where the rule says, after EpisodesRun(eps) episodes.
   */
  lemma StopRule(eps: seq<EpisodeInput>, n: nat)
    requires WellFormed(eps) && NEpisodes <= |eps| && 1 <= n <= NEpisodes
    requires n == NEpisodes || Run(eps, n).trainLog[n - 1].movingAverage > SuccessThreshold
    requires forall j :: 0 <= j < n - 1 ==> Run(eps, n).trainLog[j].movingAverage <= SuccessThreshold
    ensures Stopped(eps, n)
    ensures EpisodesRun(eps) == n
  {
    RunLog(eps, n);
    EpisodesRunUnique(eps, n);
  }

  // ---------------------------------------------------------------------------
  // Lemmas: the trace of calls, current_index and the training gate
  // ---------------------------------------------------------------------------

  /** Filtering the `add` calls distributes over concatenation. */
  lemma {:induction false} StoredAppend(a: seq<Call>, b: seq<Call>)
    ensures Stored(a + b) == Stored(a) + Stored(b)
  {
    if a == [] {
      assert a + b == b;
    } else {
      var head := if a[0].Add? then [a[0].transition] else [];
      assert (a + b)[0] == a[0];
      assert (a + b)[1..] == a[1..] + b;
      StoredAppend(a[1..], b);
      assert head + (Stored(a[1..]) + Stored(b)) == (head + Stored(a[1..])) + Stored(b);
    }
  }

  /** Counting calls distributes over concatenation. */
  lemma {:induction false} CountAppend(a: seq<Call>, b: seq<Call>, c: Call)
    ensures Count(a + b, c) == Count(a, c) + Count(b, c)
  {
    if a == [] {
      assert a + b == b;
    } else {
      assert (a + b)[0] == a[0];
      assert (a + b)[1..] == a[1..] + b;
      CountAppend(a[1..], b, c);
    }
  }

  /** A call occurs in a trace exactly when it is counted there. */
  lemma {:induction false} CountIn(cs: seq<Call>, c: Call)
    ensures c in cs <==> Count(cs, c) > 0
  {
    if cs != [] {
      CountIn(cs[1..], c);
      assert c in cs <==> cs[0] == c || c in cs[1..];
    }
  }

  /** A single call is counted once when it is the call looked for. */
  lemma CountSingle(x: Call, c: Call)
    ensures Count([x], c) == if x == c then 1 else 0
  {
    assert [x][1..] == [];
  }

  /** A single call stores a transition exactly when it is an `add`. */
  lemma StoredSingle(c: Call)
    ensures Stored([c]) == if c.Add? then [c.transition] else []
  {
    assert [c][1..] == [];
  }

  /** One step stores exactly its own transition. */
  lemma StepStored(t: Transition, episode: nat, index: nat)
    ensures Stored(StepCalls(t, episode, index)) == [t]
  {
    var take, step, add := [TakeAction(t.state, episode)], [EnvStep(t.action)], [Add(t)];
    var train := [GetMiniBatch(BatchSize)] + [TrainMinibatch];
    StoredSingle(TakeAction(t.state, episode));
    StoredSingle(EnvStep(t.action));
    StoredSingle(Add(t));
    StoredSingle(GetMiniBatch(BatchSize));
    StoredSingle(TrainMinibatch);
    StoredAppend(take, step);
    StoredAppend(take + step, add);
    if index > MemoryBankSize {
      StoredAppend([GetMiniBatch(BatchSize)], [TrainMinibatch]);
      assert StepCalls(t, episode, index) == (take + step + add) + train;
      StoredAppend(take + step + add, train);
    } else {
      assert StepCalls(t, episode, index) == take + step + add;
    }
  }

  /**
   * One step makes no environment reset, and fetches and trains on one
   * minibatch exactly when more than MemoryBankSize transitions were stored
   * before it.
   */
  lemma StepCounts(t: Transition, episode: nat, index: nat, c: Call)
    requires c == EnvReset || c == GetMiniBatch(BatchSize) || c == TrainMinibatch
    ensures Count(StepCalls(t, episode, index), c) ==
            if c == EnvReset then 0 else Trainings(index + 1) - Trainings(index)
  {
    var take, step, add := [TakeAction(t.state, episode)], [EnvStep(t.action)], [Add(t)];
    var fetch, train := [GetMiniBatch(BatchSize)], [TrainMinibatch];
    CountSingle(TakeAction(t.state, episode), c);
    CountSingle(EnvStep(t.action), c);
    CountSingle(Add(t), c);
    CountAppend(take, step, c);
    CountAppend(take + step, add, c);
    if index > MemoryBankSize {
      CountSingle(GetMiniBatch(BatchSize), c);
      CountSingle(TrainMinibatch, c);
      CountAppend(fetch, train, c);
      assert StepCalls(t, episode, index) == (take + step + add) + (fetch + train);
      CountAppend(take + step + add, fetch + train, c);
    } else {
      assert StepCalls(t, episode, index) == take + step + add;
    }
  }

  /** The training gate of one step: it trains exactly when `index > MemoryBankSize`. */
  lemma StepGate(t: Transition, episode: nat, index: nat)
    ensures TrainMinibatch in StepCalls(t, episode, index) <==> index > MemoryBankSize
  {
    if index > MemoryBankSize {
      assert StepCalls(t, episode, index)[4] == TrainMinibatch;
    } else {
      assert StepCalls(t, episode, index) == [TakeAction(t.state, episode), EnvStep(t.action), Add(t)];
    }
  }

  /** The steps of the first `k` transitions store exactly those transitions, in order. */
  lemma {:induction false} StepsStored(ts: seq<Transition>, k: nat, episode: nat, start: nat)
    requires k <= |ts|
    ensures Stored(StepsCalls(ts, k, episode, start)) == ts[..k]
  {
    if k > 0 {
      StepsStored(ts, k - 1, episode, start);
      StepStored(ts[k - 1], episode, start + k - 1);
      StoredAppend(StepsCalls(ts, k - 1, episode, start), StepCalls(ts[k - 1], episode, start + k - 1));
      assert ts[..k] == ts[..k - 1] + [ts[k - 1]];
    }
  }

  /**
   * The steps of the first `k` transitions reset nothing and train once per
   * step that finds more than MemoryBankSize stored transitions.
   */
  lemma {:induction false} StepsCounts(ts: seq<Transition>, k: nat, episode: nat, start: nat, c: Call)
    requires k <= |ts|
    requires c == EnvReset || c == GetMiniBatch(BatchSize) || c == TrainMinibatch
    ensures Count(StepsCalls(ts, k, episode, start), c) ==
            if c == EnvReset then 0 else Trainings(start + k) - Trainings(start)
  {
    if k > 0 {
      StepsCounts(ts, k - 1, episode, start, c);
      StepCounts(ts[k - 1], episode, start + k - 1, c);
      CountAppend(StepsCalls(ts, k - 1, episode, start), StepCalls(ts[k - 1], episode, start + k - 1), c);
    }
  }

  /** An episode stores its transitions in order. */
  lemma EpisodeStored(ep: EpisodeInput, episode: nat, start: nat)
    requires Ends(ep.steps)
    ensures Stored(EpisodeCalls(ep, episode, start)) == EpisodeTransitions(ep)
  {
    var ts, n := Transitions(ep.initial, ep.steps), EpisodeLength(ep.steps);
    StepsStored(ts, n, episode, start);
    StoredSingle(EnvReset);
    StoredAppend([EnvReset], StepsCalls(ts, n, episode, start));
  }

  /**
   * An episode resets the environment once and trains once per step that
   * finds more than MemoryBankSize stored transitions.
   */
  lemma EpisodeCounts(ep: EpisodeInput, episode: nat, start: nat, c: Call)
    requires Ends(ep.steps)
    requires c == EnvReset || c == GetMiniBatch(BatchSize) || c == TrainMinibatch
    ensures Count(EpisodeCalls(ep, episode, start), c) ==
            if c == EnvReset then 1 else Trainings(start + EpisodeLength(ep.steps)) - Trainings(start)
  {
    var ts, n := Transitions(ep.initial, ep.steps), EpisodeLength(ep.steps);
    StepsCounts(ts, n, episode, start, c);
    CountSingle(EnvReset, c);
    CountAppend([EnvReset], StepsCalls(ts, n, episode, start), c);
  }

  /** The trace after `k` episodes is the calls of those episodes, in order. */
  lemma {:induction false} RunCalls(eps: seq<EpisodeInput>, k: nat)
    requires WellFormed(eps) && k <= |eps|
    ensures Run(eps, k).calls == CallsBefore(eps, k)
  {
    if k > 0 {
      RunCalls(eps, k - 1);
      RunWindow(eps, k - 1);
    }
  }

  /** The memory bank receives, in order, the transitions of every episode. */
  lemma {:induction false} CallsStored(eps: seq<EpisodeInput>, k: nat)
    requires WellFormed(eps) && k <= |eps|
    ensures Stored(CallsBefore(eps, k)) == StoredBefore(eps, k)
  {
    if k > 0 {
      var start, ep := StepsBefore(eps, k - 1), eps[k - 1];
      var made := EpisodeCalls(ep, k - 1, start);
      assert CallsBefore(eps, k) == CallsBefore(eps, k - 1) + made;
      assert Stored(made) == EpisodeTransitions(ep) by {
        EpisodeStored(ep, k - 1, start);
      }
      assert StoredBefore(eps, k) == StoredBefore(eps, k - 1) + EpisodeTransitions(ep);
      CallsStored(eps, k - 1);
      StoredAppend(CallsBefore(eps, k - 1), made);
    }
  }

  /** One transition is stored per environment step. */
  lemma {:induction false} StoredCount(eps: seq<EpisodeInput>, k: nat)
    requires WellFormed(eps) && k <= |eps|
    ensures |StoredBefore(eps, k)| == StepsBefore(eps, k)
  {
    if k > 0 {
      StoredCount(eps, k - 1);
    }
  }



  /**
   * The environment is reset once per episode, and a minibatch is fetched
   * and trained on once for every step after the first MemoryBankSize + 1.
   */
  lemma {:induction false} CallsCounts(eps: seq<EpisodeInput>, k: nat, c: Call)
    requires WellFormed(eps) && k <= |eps|
    requires c == EnvReset || c == GetMiniBatch(BatchSize) || c == TrainMinibatch
    ensures Count(CallsBefore(eps, k), c) == if c == EnvReset then k else Trainings(StepsBefore(eps, k))
  {
    if k > 0 {
      var start, ep := StepsBefore(eps, k - 1), eps[k - 1];
      var prev, made := CallsBefore(eps, k - 1), EpisodeCalls(ep, k - 1, start);
      var end := start + EpisodeLength(ep.steps);
      assert CallsBefore(eps, k) == prev + made;
      assert StepsBefore(eps, k) == end;
      assert Count(made, c) == if c == EnvReset then 1 else Trainings(end) - Trainings(start) by {
        EpisodeCounts(ep, k - 1, start, c);
      }
      CallsCounts(eps, k - 1, c);
      assert Count(prev + made, c) == Count(prev, c) + Count(made, c) by {
        CountAppend(prev, made, c);
      }
      if c == EnvReset {
        assert Count(CallsBefore(eps, k), c) == (k - 1) + 1;
      } else {
        assert Count(CallsBefore(eps, k), c) == Trainings(start) + (Trainings(end) - Trainings(start));
      }
    }
  }


  /**
   * After `k` episodes of a run the memory bank received, in order, the
   * transitions of every episode; `current_index` equals the number of
   * transitions stored; the environment was reset once per episode; and a
   * minibatch was fetched and trained on once for every step after the
   * first MemoryBankSize + 1.
   */
  lemma RunTrace(eps: seq<EpisodeInput>, k: nat)
    requires WellFormed(eps) && k <= |eps|
    ensures Stored(Run(eps, k).calls) == StoredBefore(eps, k)
    ensures |StoredBefore(eps, k)| == Run(eps, k).currentIndex
    ensures Count(Run(eps, k).calls, EnvReset) == k
    ensures Count(Run(eps, k).calls, TrainMinibatch) == Trainings(Run(eps, k).currentIndex)
    ensures Count(Run(eps, k).calls, GetMiniBatch(BatchSize)) == Trainings(Run(eps, k).currentIndex)
  {
    RunCalls(eps, k);
    RunWindow(eps, k);
    CallsStored(eps, k);
    StoredCount(eps, k);
    CallsCounts(eps, k, EnvReset);
    CallsCounts(eps, k, TrainMinibatch);
    CallsCounts(eps, k, GetMiniBatch(BatchSize));
  }

  /**
   * The first minibatch training of a run happens only once more than
   * MemoryBankSize + 1 environment steps were taken: the gate compares the
   * count of transitions stored before the step, with a strict `>`.
   */
  lemma FirstTraining(eps: seq<EpisodeInput>, k: nat)
    requires WellFormed(eps) && k <= |eps|
    ensures TrainMinibatch in Run(eps, k).calls <==> StepsBefore(eps, k) > MemoryBankSize + 1
  {
    RunTrace(eps, k);
    RunWindow(eps, k);
    CountIn(Run(eps, k).calls, TrainMinibatch);
  }

  // ---------------------------------------------------------------------------
  // Lemmas: episode totals, means and the stopping threshold
  // ---------------------------------------------------------------------------

  /** With a reward of exactly 1.0 per step, the sum of `int(reward)` counts the steps. */
  lemma {:induction false} UnitRewardSum(steps: seq<StepInput>, k: nat)
    requires k <= |steps|
    requires forall j :: 0 <= j < |steps| ==> steps[j].reward == 1.0
    ensures SumRewards(steps, k) == k
  {
    if k > 0 {
      UnitRewardSum(steps, k - 1);
      assert Trunc(steps[k - 1].reward) == 1;
    }
  }

  /** CartPole pays 1.0 per step: an episode's total reward is then its number of steps. */
  lemma UnitRewards(ep: EpisodeInput)
    requires Ends(ep.steps)
    requires forall j :: 0 <= j < |ep.steps| ==> ep.steps[j].reward == 1.0
    ensures EpisodeTotal(ep) == EpisodeLength(ep.steps)
  {
    UnitRewardSum(ep.steps, EpisodeLength(ep.steps));
  }

  /** Entry `j` of the totals is episode `j`'s total reward. */
  lemma {:induction false} TotalsAt(eps: seq<EpisodeInput>, k: nat, j: nat)
    requires WellFormed(eps) && j < k <= |eps|
    ensures Totals(eps, k)[j] == EpisodeTotal(eps[j])
  {
    if j < k - 1 {
      TotalsAt(eps, k - 1, j);
    }
  }

  /** Bounds on the values bound their sum. */
  lemma {:induction false} SumBound(s: seq<int>, k: nat, c: int)
    requires k <= |s|
    ensures (forall j :: 0 <= j < k ==> s[j] <= c) ==> Sum(s, k) <= k * c
    ensures (forall j :: 0 <= j < k ==> s[j] >= c) ==> Sum(s, k) >= k * c
  {
    if k > 0 {
      SumBound(s, k - 1, c);
      assert k * c == (k - 1) * c + c;
    }
  }

  /** Bounds on the values bound their mean. */
  lemma MeanBound(s: seq<int>, c: int)
    requires |s| > 0
    ensures (forall j :: 0 <= j < |s| ==> s[j] <= c) ==> Mean(s) <= c as real
    ensures (forall j :: 0 <= j < |s| ==> s[j] >= c) ==> Mean(s) >= c as real
  {
    SumBound(s, |s|, c);
    QuotientBound(Sum(s, |s|) as real, c as real, |s| as real);
  }

  /** Dividing by a positive count preserves a bound scaled by that count. */
  lemma QuotientBound(a: real, b: real, n: real)
    requires n > 0.0
    ensures a <= n * b ==> a / n <= b
    ensures a >= n * b ==> a / n >= b
  {
    var q := a / n;
    assert (q - b) * n == a - n * b;
  }

  /**
   * Entry `m` of the averaged window after episode `i` is the total of
   * episode i + 1 - |window| + m: the window covers the episodes from
   * max(0, i - WindowSize) to `i`.
   */
  lemma WindowAt(eps: seq<EpisodeInput>, i: nat, m: nat)
    requires WellFormed(eps) && i < |eps|
    requires m < |Last(Totals(eps, i + 1), WindowSize + 1)|
    ensures var w := Last(Totals(eps, i + 1), WindowSize + 1);
      i + 1 - |w| >= 0 && (i + 1 - |w| == 0 || i + 1 - |w| == i - WindowSize) &&
      w[m] == EpisodeTotal(eps[i + 1 - |w| + m])
  {
    TotalsAt(eps, i + 1, i + 1 - |Last(Totals(eps, i + 1), WindowSize + 1)| + m);
  }

  /**
   * The run stops after episode `i` only if one of the totals the moving
   * average covers, those of episodes max(0, i - WindowSize) to `i`, is
   * above the threshold.
   */
  lemma ConvergedNeedsHighScore(eps: seq<EpisodeInput>, i: nat)
    requires WellFormed(eps) && i < |eps|
    requires Converged(eps, i)
    ensures exists j :: 0 <= j <= i && i <= j + WindowSize && EpisodeTotal(eps[j]) as real > SuccessThreshold
  {
    var w := Last(Totals(eps, i + 1), WindowSize + 1);
    if forall m :: 0 <= m < |w| ==> w[m] <= 150 {
      MeanBound(w, 150);
      assert false;
    }
    var m :| 0 <= m < |w| && w[m] > 150;
    WindowAt(eps, i, m);
  }

  /**
   * Conversely, the run stops after episode `i` when every total the moving
   * average covers, those of episodes max(0, i - WindowSize) to `i`, is
   * above the threshold.
   */
  lemma HighScoresConverge(eps: seq<EpisodeInput>, i: nat)
    requires WellFormed(eps) && i < |eps|
    requires forall j :: 0 <= j <= i && i <= j + WindowSize ==> EpisodeTotal(eps[j]) as real > SuccessThreshold
    ensures Converged(eps, i)
  {
    var w := Last(Totals(eps, i + 1), WindowSize + 1);
    forall m | 0 <= m < |w|
      ensures w[m] >= 151
    {
      WindowAt(eps, i, m);
    }
    MeanBound(w, 151);
  }

  /**
   * When every episode so far scored the same total `c`, the logged moving
   * average is exactly `c`, whatever the number of totals it covers.
   */
  lemma ConstantAverage(eps: seq<EpisodeInput>, i: nat, c: int)
    requires WellFormed(eps) && i < |eps|
    requires forall j :: 0 <= j <= i ==> EpisodeTotal(eps[j]) == c
    ensures Record(eps, i).movingAverage == c as real
  {
    var w := Last(Totals(eps, i + 1), WindowSize + 1);
    forall m | 0 <= m < |w|
      ensures w[m] == c
    {
      WindowAt(eps, i, m);
    }
    MeanBound(w, c);
  }
}
