/**
  The puzzle environment: a board of `size` columns filled one queen per step,
  a step counter, and the list of distinct solutions found so far.
*/
module Environment {
  import opened Board

  class QueensEnv {
    /** The number of columns (and rows) of the board. */
    const size: nat
    /** The current board; `reset` replaces it by a fresh array. */
    var observation: array<int>
    /** The number of queens placed since the last reset. */
    var currentStep: nat
    /** The distinct full, conflict-free boards met so far, in the order found. */
    var solutions: seq<seq<int>>

    ghost predicate Valid()
      reads this
    {
      && observation.Length == size
      && currentStep <= size
      && IsSolutionList(solutions, size)
    }

    /** A new environment has no board until its first reset; a placeholder board with
        every column counted as placed stands for it, so `Step` cannot be called yet. */
    constructor (size: nat)
      ensures Valid()
      ensures this.size == size && currentStep == size && solutions == []
    {
      this.size := size;
      observation := new int[size];
      currentStep := size;
      solutions := [];
    }

    /** Scores the current board: minus one per attacking pair among the placed queens,
        `size * size` for a full board without conflicts; such a board is appended to
        `solutions` unless an equal board is already there. */
    method CalculateReward() returns (reward: int)
      requires Valid()
      modifies this`solutions
      ensures Valid()
      ensures reward == Reward(observation[..], currentStep, size)
      ensures solutions ==
        if currentStep == size then AddSolution(old(solutions), observation[..], size) else old(solutions)
    {
      ghost var b := observation[..];
      reward := 0;
      var i := 0;
      while i < currentStep
        invariant 0 <= i <= currentStep
        invariant reward == -(PairCount(b, i, currentStep) as int)
      {
        var j := i + 1;
        while j < currentStep
          invariant i + 1 <= j <= currentStep
          invariant reward == -(PairCount(b, i, currentStep) + RowCount(b, i, i + 1, j)) as int
        {
          if observation[i] == observation[j]
            || observation[i] - observation[j] == i - j
            || observation[i] - observation[j] == j - i
          {
            reward := reward - 1;
          }
          j := j + 1;
        }
        i := i + 1;
      }
      ConflictsZeroIff(b, currentStep);
      if reward == 0 && currentStep == size {
        reward := reward + size * size;
        var found := false;
        var k := 0;
        while k < |solutions|
          invariant 0 <= k <= |solutions|
          invariant found <==> b in solutions[..k]
        {
          if solutions[k] == observation[..] {
            found := true;
          }
          k := k + 1;
        }
        if !found {
          assert (solutions + [b])[..|solutions|] == solutions;
          solutions := solutions + [observation[..]];
        }
      }
    }

    /** Places a queen in row `action` of the next column and scores the new board;
        `done` is reported once every column holds a placed queen. */
    method Step(action: int) returns (obs: seq<int>, reward: int, done: bool)
      requires Valid() && currentStep < size
      modifies this, observation
      ensures Valid() && observation == old(observation)
      ensures observation[..] == old(observation[..])[old(currentStep) := action]
      ensures currentStep == old(currentStep) + 1
      ensures obs == observation[..]
      ensures reward == Reward(obs, currentStep, size)
      ensures done <==> currentStep == size
      ensures solutions == if done then AddSolution(old(solutions), obs, size) else old(solutions)
    {
      observation[currentStep] := action;
      currentStep := currentStep + 1;
      reward := CalculateReward();
      done := currentStep == size;
      obs := observation[..];
    }

    /** Starts an episode from the permutation `perm` (drawn at random by the caller)
        on a fresh board, with no queen placed yet. */
    method Reset(perm: seq<int>) returns (obs: seq<int>)
      requires Valid() && IsPermutation(perm, size)
      modifies this
      ensures Valid() && fresh(observation)
      ensures observation[..] == perm && obs == perm
      ensures currentStep == 0 && solutions == old(solutions)
    {
      observation := new int[size](k requires 0 <= k < size => perm[k]);
      currentStep := 0;
      obs := observation[..];
    }
  }
}
