# Eight queens by the cross-entropy method — a Dafny model of the environment and episode pipeline

The program trains a policy to solve the N-Queens puzzle: each episode starts from a
random board (a permutation of rows, one queen per column). It then places one queen per
step, column after column, into the row the policy picks. After every step the
environment scores the board: minus one per attacking pair among the queens placed so
far, and a `size²` bonus for a full board without conflicts. Every new full solution is
recorded once. A generator groups the finished episodes into batches. A filter keeps the
episodes whose reward reaches a percentile bound and flattens their (board, action) steps
into training data.

This project models the non-numeric core of that program:

- `board.dfy` — module `Board`. The conflict rule, the conflict count in the order the
  reward loops visit pairs, the reward, permutations, and lists of recorded solutions.
- `queens_env.dfy` — module `Environment`. The environment as a class `QueensEnv`:
  - an `array<int>` board, the step counter and the solution list;
  - `CalculateReward` keeps the nested counting loops and the duplicate scan of the source;
  - `Step` writes the board in place and advances the counter; `Reset` installs a fresh
    board and zeroes the counter.
- `episodes.dfy` — module `Episodes`. Episodes and their steps, and the episode played
  from a reset board by a list of actions (`RunEpisode`), with its step list and reward.
- `schedule.dfy` — module `Schedule`. How a stream of actions divides into episodes of
  `size` actions, and the list of episodes it completes (`Completed`).
- `batches.dfy` — module `Batches`:
  - the generator loop as a class `BatchIterator`, holding the generator's local variables;
  - its method `Next` runs one round of the loop;
  - `IterateBatches` drives it over a finite list of actions;
  - a value-level reference `Advance`/`Generate` is proved to describe the loop's own
    variables (board, episode, batch, yielded batches) exactly;
  - the environment's solution list is described exactly by `Record`, which scores the
    final board of every completed episode in turn.
- `filter.dfy` — module `Filter`. Elite selection and flattening (`FilterBatch`, a loop
  with `continue`), specified by the functions `Elite` and `AllSteps`.
- `action_space.dfy` — module `ActionSpace`. The declared action space compared with the
  one actions are really drawn from (see Findings).

Inputs the program takes from randomness or from a neural network are parameters of the
model:
- the permutation a reset draws is an argument of `Reset`;
- `IterateBatches` takes the actions the policy samples, in order, and the permutations
  the resets draw, in order;
- the percentile bound of `filter_batch` is an argument of `FilterBatch`.

## Model

| member | source | states |
|---|---|---|
| `Board.Reward` | eight_queens.py:61-74 | The reward after `placed` queens is `n*n` for a full conflict-free board, `0` for a partial conflict-free board, and otherwise minus the number of attacking pairs, hence negative as soon as two placed queens attack. |
| `Board.ConflictsZeroIff` | eight_queens.py:64-70 | The pair count the loops compute is zero exactly when no two of the placed queens share a row or a diagonal. |
| `Board.ConflictsFrame` | eight_queens.py:64-70 | The conflict count of the first `k` columns depends on those columns only. |
| `Board.ConflictsGrow` | eight_queens.py:64-70 | Placing one more queen never decreases the number of conflicting pairs. |
| `Board.NoDuplicatesIff` | eight_queens.py:76-84 | The recursive "each board differs from every earlier one" form of the solution list equals the pairwise form: no two positions hold equal boards. |
| `Environment.QueensEnv.constructor` | eight_queens.py:51-59 | A new environment has the given size, an empty solution list, and no step allowed before the first reset. |
| `Environment.QueensEnv.CalculateReward` | eight_queens.py:61-86 | The nested loops return exactly `Reward` of the current board. A full conflict-free board is appended to `solutions` exactly when no equal board is already there; otherwise `solutions` is unchanged. The list stays a duplicate-free list of full solutions. |
| `Environment.QueensEnv.Step` | eight_queens.py:88-94 | Writes `action` into column `currentStep` and leaves every other column unchanged. Advances the counter by one and returns a copy of the new board and its reward. `done` holds exactly when the board is full; the solution list grows as `CalculateReward` says. |
| `Environment.QueensEnv.Reset` | eight_queens.py:97-100 | Installs a fresh board equal to the given permutation, sets the counter to 0, returns a copy of the board, and keeps the solutions. |
| `Episodes.BoardAfterPlace` | eight_queens.py:89 | Placing the next queen overwrites exactly the next column of the board reached so far. |
| `Episodes.RunEpisodeAppend` | eight_queens.py:134-140 | One more action adds that step's reward to the episode reward and appends the step (board before it, action) to the step list. |
| `Episodes.EpisodeSteps` | eight_queens.py:138-140 | An episode records one step per action, and step `k` holds the board before it: actions `0..k-1` followed by the reset board's remaining columns. |
| `Episodes.FinalBoard` | eight_queens.py:89-93 | A full episode ends on the board made of its own actions, and its step list's actions are exactly those actions. |
| `Episodes.PrefixReward` | eight_queens.py:134-136 | The summed step rewards are 0, or `n*n` on a full board, while no placed queens attack. Once some do, the sum is at most minus the current number of conflicting pairs. |
| `Episodes.EpisodeReward` | eight_queens.py:134-143 | A completed episode's reward is `n*n` when its final board has no conflict, and negative otherwise. |
| `Schedule.ChunksAppend` | eight_queens.py:142-147 | One more action either extends the episode in progress or, when it fills the board, completes that episode, after which a new one starts empty. |
| `Schedule.ChunksPartition` | eight_queens.py:131-154 | The completed episodes' actions followed by the pending ones are exactly the actions taken, in order. |
| `Schedule.ChunksLength` | eight_queens.py:131-154 | The number of actions taken is `n` times the number of completed episodes plus the number of pending actions. |
| `Schedule.ChunkCount` | eight_queens.py:131-154 | After `t` actions, `t / n` episodes are complete and `t % n` actions are pending. |
| `Schedule.ChunksPrefix` | eight_queens.py:131-154 | Taking more actions never un-completes an episode: the episodes completed after a prefix of the actions are the first episodes completed after all of them. |
| `Schedule.CompletedAppend` | eight_queens.py:142-147 | One more action adds a completed episode exactly when it fills the board, and that episode is the pending actions plus this one, played on the last drawn permutation. |
| `Schedule.CompletedEpisode` | eight_queens.py:131-147 | Every completed episode has exactly `n` steps. Step `k` records the board before it and the action. Its actions are its final board, and its reward is `n*n` exactly when that board has no conflict (negative otherwise). |
| `Batches.AdvanceKeeps` | eight_queens.py:131-154 | Every round keeps the generator invariant: the yielded batches (each of exactly `batchSize` episodes) followed by the batch being filled are all completed episodes, in order. The batch being filled stays below `batchSize`, and one step is recorded per placed queen. |
| `Batches.Generate` | eight_queens.py:131-154 | After any list of actions, the generator has drawn one permutation per completed episode and has placed as many queens as there are pending actions. |
| `Batches.GenerateInv` | eight_queens.py:131-154 | The generator invariant holds after any number of rounds. |
| `Batches.AdvanceMeaning` | eight_queens.py:134-148 | If the episode in progress is the episode of the pending actions, one more round either extends it by the new action or completes it and starts an empty episode on the next permutation. |
| `Batches.GenerateMeaning` | eight_queens.py:131-154 | After any actions, the completed episodes are exactly `Completed`. The episode in progress and the board are those of the pending actions on the last permutation drawn. |
| `Batches.RecordGrows` | eight_queens.py:76-84 | Scoring the final boards of completed episodes never removes a recorded solution. |
| `Batches.RecordComplete` | eight_queens.py:76-84 | Every completed episode that solves the puzzle has its final board among the recorded solutions. |
| `Batches.RecordSound` | eight_queens.py:76-84 | Every recorded solution was recorded before, or is the final board of a completed episode that solves the puzzle. |
| `Batches.RecordKeepsList` | eight_queens.py:76-84 | Scoring completed episodes keeps the solution list a duplicate-free list of full conflict-free boards. |
| `Batches.CloseRecords` | eight_queens.py:88-93 | The round that closes an episode changes the recorded solutions exactly as the environment's step that fills the board does: its final board is added when it has no conflict and is not yet recorded. |
| `Batches.FinalActions` | eight_queens.py:89-93 | The steps of an episode closed by its last queen record, as actions, exactly the board it ends on. |
| `Batches.BatchIterator.constructor` | eight_queens.py:126-129 | Starts with an empty batch, reward 0, no steps, and a first reset from the first permutation. |
| `Batches.BatchIterator.Next` | eight_queens.py:131-154 | One loop round takes the generator state to `Advance` of it. The solution list changes only in a round that fills the board, and then exactly by that board (added when it has no conflict and is new). The iterator invariant is kept: one recorded step per placed queen, and the solutions are `Record` of the completed episodes. |
| `Batches.BatchIterator.Play` | eight_queens.py:132-140 | Steps the environment with the action, adds the step reward to the episode reward, and appends (board before the step, action) to the episode steps. The solution list changes only when the board fills, exactly as `Record` says for the episode that closes. |
| `Batches.BatchIterator.CloseEpisode` | eight_queens.py:142-152 | Appends the finished episode to the batch and starts an empty episode on a fresh board from the next permutation. Returns the batch and empties it exactly when it holds `batchSize` episodes. |
| `Batches.IterateBatches` | eight_queens.py:125-154 | After the given actions: every yielded batch has exactly `batchSize` episodes, their concatenation is a prefix of the completed episodes, and fewer than `batchSize` completed episodes have not been yielded. The board and counter are those of the pending actions. The solution list is exactly `Record` of the completed episodes: no solution is lost, every completed episode that solves the puzzle has its board recorded, and every new entry is such a board. |
| `Filter.FilterBatch` | eight_queens.py:156-168 | The loop (skipping episodes below the bound) returns the boards and the actions of all steps of `Elite(batch, bound)`, episode after episode, step after step. |
| `Filter.EliteMembership` | eight_queens.py:164-166 | An episode is kept exactly when it is in the batch and its reward is at least the bound. |
| `Filter.EliteAppend` | eight_queens.py:164-168 | Selection preserves order: selecting from two consecutive parts gives the two selections consecutively. |
| `Filter.EliteKeepsAll` | eight_queens.py:158-166 | A bound no greater than every reward keeps the whole batch. |
| `Filter.EliteNonEmpty` | eight_queens.py:158-166 | A bound no greater than some episode's reward keeps at least one episode. |
| `Filter.AllStepsLength` | eight_queens.py:167-168 | The flattened steps number the kept episodes' steps together. |
| `Filter.StepCountUniform` | eight_queens.py:167-168 | Episodes of `n` steps each contribute `n` entries each. |
| `Filter.AllStepsFrom` | eight_queens.py:167-168 | Every flattened step is a step of one of the episodes. |
| `Filter.TrainingPairs` | eight_queens.py:163-168 | The two training lists are equally long, as long as the kept episodes' steps together. Their `k`-th entries are the board and action of one step of a batch episode whose reward reaches the bound. |
| `Filter.TrainingSize` | eight_queens.py:163-168 | With completed episodes of `n` steps, both training lists hold `n` entries per kept episode. |
| `ActionSpace.DeclaredSpaceNeverSolves` | eight_queens.py:55 | With actions drawn from the declared `Discrete(size-1)` space, every full board has a conflict and every episode earns a negative reward. |
| `ActionSpace.SampledSpaceSolves` | eight_queens.py:116 | With actions drawn from `0..CHESSBOARD_SIZE-1` the 8x8 puzzle is solvable: the queens `0,4,7,5,2,6,1,3` lie in that space, do not attack, and earn `64` from any reset board. |
| `ActionSpace.EpisodeObservations` | eight_queens.py:54 | With actions in `0..size-1` and a permutation reset, every recorded board lies in the declared observation space `Box(0, size-1)` of length `size`. |

## Left out

- Neural network, action selection, training loop. `PolicyNN`, `select_action`, the
  optimiser, the loss and the `SummaryWriter` logging are floating-point numerics inside
  foreign libraries. The sampled actions are a parameter of `IterateBatches`.
- The `len(env.solutions) == 92` stop test of the training loop is not modelled. Nothing in
  the code bounds when it is reached.
- Randomness: `np.random.choice` in `reset` is a parameter, and only its postcondition (a
  permutation of `0..size-1`) is required of it.
- `np.percentile` and `np.mean` in `filter_batch` are left out. The bound is a parameter of
  `FilterBatch`, and the mean is not returned. Converting the lists to tensors is left out
  too.
- Rewards are integers. The generator accumulates them into a float starting at `0.0`, but
  every value is a small integer, so the float sum is exact.
- Before the first reset the source's environment has no board and no step counter, so a
  step raises. The constructor instead installs a placeholder board with every column
  counted as placed, so `Step` (which requires a free column) cannot be called. Stepping
  past a full board raises in the source; it is excluded the same way.
- `CalculateReward` can be called on that placeholder board in the model: it scores it as a
  full board and may record it as a solution (for size 1 it always does). In the source,
  `_calculate_reward` is private and only `step` calls it, and before the first reset it
  raises, because the board and the step counter do not exist yet. The model does not
  capture that error.
- The default `size=4` of the environment's constructor is not modelled: the size is always
  passed explicitly, as the program itself does with `CHESSBOARD_SIZE`.
- `step_count`, the gym `observation_space`/`action_space` objects, `close`, the device
  choice and the `print` of a new solution carry no behaviour the model needs. The two
  declared spaces appear only as predicates in `ActionSpace`.
- Aliasing of the recorded solution. The source appends the environment's array object
  itself to `solutions`; the model appends a copy of its contents. The two agree because
  `reset` allocates a new array and a full board is never written again.
- `IterateBatches` runs the generator for a finite list of actions, where the source loops
  forever and suspends at each `yield`. The batches it returns are those yielded within
  those rounds, and the completed episodes not yet yielded stay in the batch being filled.
- The `env` argument of `iterate_batches` is the `env` parameter of `IterateBatches`. The
  `net` argument only feeds action selection and is replaced by the `actions` list.

## Findings

| source | as written | input that shows it | evidently intended | confidence | as-written member | corrected member |
|---|---|---|---|---|---|---|
| eight_queens.py:55 | The action space is declared `Discrete(size-1)`, i.e. rows `0..size-2` | size 8, any 8 actions from `0..6`: two queens always share a row, so no episode can earn the bonus or be recorded | `Discrete(size)`, rows `0..size-1`, as the sampler at eight_queens.py:116 draws | not executed | `ActionSpace.DeclaredSpaceNeverSolves` | `ActionSpace.SampledSpaceSolves` |
