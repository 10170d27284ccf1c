/**
  The batch generator: it plays episodes on the environment, one action per round,
  and yields them in batches of a fixed size.
*/
module Batches {
  import opened Board
  import opened Environment
  import opened Episodes
  import opened Schedule

  /** The state of the episode generator between two actions: the number of resets after
      the first one, the board, the queens placed on it, the reward and steps of the
      episode in progress, the batch being filled, the batches yielded so far, and (for
      the proofs only) every episode completed so far. */
  datatype Generator = Generator(drawn: nat, board: seq<int>, placed: nat, reward: int,
                                 steps: seq<EpisodeStep>, batch: seq<Episode>,
                                 batches: seq<seq<Episode>>, done: seq<Episode>)

  /** One round of the generator loop: place the queen `x`, score the board and record
      the step; on a full board close the episode, add it to the batch and reset to the
      next permutation; yield the batch once it holds `batchSize` episodes. */
  function Advance(perms: seq<seq<int>>, batchSize: nat, g: Generator, x: int, n: nat): Generator
    requires g.placed < n == |g.board| && g.drawn < |perms|
    requires g.placed + 1 == n ==> g.drawn + 1 < |perms|
  {
    var board := g.board[g.placed := x];
    var reward := g.reward + Reward(board, g.placed + 1, n);
    var steps := g.steps + [EpisodeStep(g.board, x)];
    if g.placed + 1 < n then
      g.(board := board, placed := g.placed + 1, reward := reward, steps := steps)
    else
      var ep := Episode(reward, steps);
      var reset := Generator(g.drawn + 1, perms[g.drawn + 1], 0, 0, [], g.batch + [ep],
                             g.batches, g.done + [ep]);
      if |g.batch| + 1 == batchSize then reset.(batch := [], batches := g.batches + [g.batch + [ep]])
      else reset
  }

  /** A round that leaves the board unfinished only places the queen and records it. */
  lemma AdvancePlace(perms: seq<seq<int>>, batchSize: nat, g: Generator, x: int, n: nat)
    requires g.placed + 1 < n == |g.board| && g.drawn < |perms|
    ensures Advance(perms, batchSize, g, x, n) ==
      Generator(g.drawn, g.board[g.placed := x], g.placed + 1,
                g.reward + Reward(g.board[g.placed := x], g.placed + 1, n),
                g.steps + [EpisodeStep(g.board, x)], g.batch, g.batches, g.done)
  {
  }

  /** A round that fills the board closes the episode `ep`, adds it to the batch, and
      starts the next episode from the next permutation drawn; the batch is yielded
      once it holds `batchSize` episodes. */
  lemma AdvanceClose(perms: seq<seq<int>>, batchSize: nat, g: Generator, x: int, n: nat, ep: Episode)
    requires g.placed + 1 == n == |g.board| && g.drawn + 1 < |perms|
    requires ep == Episode(g.reward + Reward(g.board[g.placed := x], g.placed + 1, n),
                           g.steps + [EpisodeStep(g.board, x)])
    ensures |g.batch| + 1 != batchSize ==>
      Advance(perms, batchSize, g, x, n) ==
      Generator(g.drawn + 1, perms[g.drawn + 1], 0, 0, [], g.batch + [ep], g.batches, g.done + [ep])
    ensures |g.batch| + 1 == batchSize ==>
      Advance(perms, batchSize, g, x, n) ==
      Generator(g.drawn + 1, perms[g.drawn + 1], 0, 0, [], [], g.batches + [g.batch + [ep]], g.done + [ep])
  {
  }

  /** One recorded step per placed queen, whose action is that queen. */
  ghost predicate StepsMatch(steps: seq<EpisodeStep>, board: seq<int>, placed: nat)
  {
    && |steps| == placed <= |board|
    && (forall k :: 0 <= k < placed ==> steps[k].action == board[k])
  }

  /** What holds of the generator between two rounds: the board has `n` columns with
      fewer than `n` queens placed, one recorded step per placed queen whose action is
      that queen, and the yielded batches, each of `batchSize` episodes, followed by the
      batch being filled, are all completed episodes in order. */
  ghost predicate GeneratorInv(g: Generator, batchSize: nat, n: nat)
  {
    && |g.board| == n && g.placed < n && StepsMatch(g.steps, g.board, g.placed)
    && Concat(g.batches) + g.batch == g.done
    && (forall c :: 0 <= c < |g.batches| ==> |g.batches[c]| == batchSize)
    && (batchSize > 0 ==> |g.batch| < batchSize)
    && (batchSize == 0 ==> g.batches == [])
  }

  /** Every round of the generator keeps its invariant. */
  lemma AdvanceKeeps(perms: seq<seq<int>>, batchSize: nat, g: Generator, x: int, n: nat)
    requires GeneratorInv(g, batchSize, n) && g.drawn < |perms|
    requires g.placed + 1 == n ==> g.drawn + 1 < |perms| && |perms[g.drawn + 1]| == n
    ensures GeneratorInv(Advance(perms, batchSize, g, x, n), batchSize, n)
  {
    var ep := Episode(g.reward + Reward(g.board[g.placed := x], g.placed + 1, n),
                      g.steps + [EpisodeStep(g.board, x)]);
    if g.placed + 1 < n {
      AdvancePlace(perms, batchSize, g, x, n);
    } else {
      AdvanceClose(perms, batchSize, g, x, n, ep);
      ConcatAppend(g.batches, [g.batch + [ep]]);
      assert Concat([g.batch + [ep]]) == g.batch + [ep] by {
        assert [g.batch + [ep]][..0] == [];
      }
    }
  }

  /** The generator state after the actions `acts`, one round at a time; its counters
      agree with the partition of the actions into episodes. */
  function Generate(perms: seq<seq<int>>, batchSize: nat, acts: seq<int>, n: nat): (g: Generator)
    requires n > 0 && |perms| > |Chunks(acts, n)|
    requires forall e :: 0 <= e < |perms| ==> |perms[e]| == n
    ensures g.drawn == |Chunks(acts, n)| && g.placed == |Pending(acts, n)| && |g.board| == n
    decreases |acts|
  {
    if acts == [] then Generator(0, perms[0], 0, 0, [], [], [], [])
    else
      var k := |acts| - 1;
      assert acts == acts[..k] + [acts[k]];
      ChunksAppend(acts[..k], acts[k], n);
      Advance(perms, batchSize, Generate(perms, batchSize, acts[..k], n), acts[k], n)
  }

  /** The generator invariant holds after any number of rounds. */
  lemma {:induction false} GenerateInv(perms: seq<seq<int>>, batchSize: nat, acts: seq<int>, n: nat)
    requires n > 0 && |perms| > |Chunks(acts, n)|
    requires forall e :: 0 <= e < |perms| ==> |perms[e]| == n
    ensures GeneratorInv(Generate(perms, batchSize, acts, n), batchSize, n)
    decreases |acts|
  {
    if acts != [] {
      var k := |acts| - 1;
      var prev, x := acts[..k], acts[k];
      assert acts == prev + [x];
      ChunksAppend(prev, x, n);
      GenerateInv(perms, batchSize, prev, n);
      GenerateAppend(perms, batchSize, prev, x, n);
      AdvanceKeeps(perms, batchSize, Generate(perms, batchSize, prev, n), x, n);
    }
  }

  lemma GenerateAppend(perms: seq<seq<int>>, batchSize: nat, acts: seq<int>, x: int, n: nat)
    requires n > 0 && |perms| > |Chunks(acts + [x], n)|
    requires forall e :: 0 <= e < |perms| ==> |perms[e]| == n
    ensures |Chunks(acts, n)| <= |Chunks(acts + [x], n)|
    ensures Generate(perms, batchSize, acts + [x], n) ==
      Advance(perms, batchSize, Generate(perms, batchSize, acts, n), x, n)
  {
    ChunksAppend(acts, x, n);
    assert (acts + [x])[..|acts|] == acts;
  }

  /** One round, on values: when the episode in progress is the episode of the actions
      `pend` on the permutation `perms[g.drawn]`, after the queen `x` it is the episode of
      `pend + [x]`, or, on a full board, that episode is completed and the next one starts
      empty on the next permutation. */
  lemma AdvanceMeaning(perms: seq<seq<int>>, batchSize: nat, g: Generator, x: int, n: nat, pend: seq<int>)
    requires g.placed < n == |g.board| && g.drawn < |perms| && |perms[g.drawn]| == n
    requires g.placed + 1 == n ==> g.drawn + 1 < |perms|
    requires |pend| == g.placed && g.board == BoardAfter(perms[g.drawn], pend)
    requires Episode(g.reward, g.steps) == RunEpisode(perms[g.drawn], pend)
    ensures var a := Advance(perms, batchSize, g, x, n);
      var p := perms[g.drawn];
      && (g.placed + 1 < n ==>
            && a.drawn == g.drawn && a.done == g.done
            && a.board == BoardAfter(p, pend + [x])
            && Episode(a.reward, a.steps) == RunEpisode(p, pend + [x]))
      && (g.placed + 1 == n ==>
            && a.drawn == g.drawn + 1 && a.done == g.done + [RunEpisode(p, pend + [x])]
            && a.board == BoardAfter(perms[a.drawn], [])
            && Episode(a.reward, a.steps) == RunEpisode(perms[a.drawn], []))
  {
    var p := perms[g.drawn];
    RunEpisodeAppend(p, pend, x);
    BoardAfterPlace(p, pend, x);
    var ep := Episode(g.reward + Reward(g.board[g.placed := x], g.placed + 1, n),
                      g.steps + [EpisodeStep(g.board, x)]);
    assert ep == RunEpisode(p, pend + [x]);
    if g.placed + 1 == n {
      AdvanceClose(perms, batchSize, g, x, n, ep);
      assert perms[g.drawn + 1][0..] == perms[g.drawn + 1];
    } else {
      AdvancePlace(perms, batchSize, g, x, n);
    }
  }

  /** The generator, run one round at a time, yields exactly the declared episodes:
      the completed ones are `Completed`, and the one in progress is the episode of the
      pending actions on the last permutation drawn, whose board the generator holds. */
  lemma {:induction false} GenerateMeaning(perms: seq<seq<int>>, batchSize: nat, acts: seq<int>, n: nat)
    requires n > 0 && |perms| > |Chunks(acts, n)|
    requires forall e :: 0 <= e < |perms| ==> |perms[e]| == n
    ensures var g := Generate(perms, batchSize, acts, n);
      && g.done == Completed(perms, acts, n)
      && g.board == BoardAfter(perms[g.drawn], Pending(acts, n))
      && Episode(g.reward, g.steps) == RunEpisode(perms[g.drawn], Pending(acts, n))
    decreases |acts|
  {
    if acts == [] {
      assert perms[0][0..] == perms[0];
    } else {
      var k := |acts| - 1;
      var prev, x := acts[..k], acts[k];
      assert acts == prev + [x];
      ChunksAppend(prev, x, n);
      GenerateMeaning(perms, batchSize, prev, n);
      GenerateAppend(perms, batchSize, prev, x, n);
      CompletedAppend(perms, prev, x, n);
      AdvanceMeaning(perms, batchSize, Generate(perms, batchSize, prev, n), x, n, Pending(prev, n));
    }
  }

  /** The solution list after the episodes `done` were closed, starting from `sols`: the
      step that fills the board of an episode scores its final board. */
  function Record(sols: seq<seq<int>>, done: seq<Episode>, n: nat): seq<seq<int>>
    decreases |done|
  {
    if done == [] then sols
    else
      var prev := Record(sols, done[..|done| - 1], n);
      var ep := done[|done| - 1];
      if |ep.steps| == n then AddSolution(prev, Actions(ep.steps), n) else prev
  }

  /** Recorded solutions are never lost. */
  lemma {:induction false} RecordGrows(sols: seq<seq<int>>, done: seq<Episode>, n: nat)
    ensures sols <= Record(sols, done, n)
    decreases |done|
  {
    if done != [] {
      RecordGrows(sols, done[..|done| - 1], n);
    }
  }

  /** Every episode of `done` that solves the puzzle has its final board in `sols`. */
  ghost predicate Recorded(done: seq<Episode>, sols: seq<seq<int>>, n: nat)
  {
    forall ep :: ep in done && Solves(ep, n) ==> Actions(ep.steps) in sols
  }

  /** Every closed episode that solves the puzzle has its final board recorded. */
  lemma {:induction false} RecordComplete(sols: seq<seq<int>>, done: seq<Episode>, n: nat)
    ensures Recorded(done, Record(sols, done, n), n)
    decreases |done|
  {
    if done != [] {
      var m := |done| - 1;
      var prev := Record(sols, done[..m], n);
      RecordComplete(sols, done[..m], n);
      RecordGrows(prev, [done[m]], n);
      assert [done[m]][..0] == [];
      forall ep | ep in done && Solves(ep, n) ensures Actions(ep.steps) in Record(sols, done, n) {
        if ep in done[..m] {
          assert Actions(ep.steps) in prev;
        } else {
          assert done == done[..m] + [done[m]];
        }
      }
    }
  }

  /** Every recorded solution was there at the start or is the final board of a closed
      episode that solves the puzzle. */
  lemma {:induction false} RecordSound(sols: seq<seq<int>>, done: seq<Episode>, n: nat, s: seq<int>)
    requires s in Record(sols, done, n)
    ensures s in sols || exists ep :: ep in done && Solves(ep, n) && Actions(ep.steps) == s
    decreases |done|
  {
    if done != [] {
      var m := |done| - 1;
      if s in Record(sols, done[..m], n) {
        RecordSound(sols, done[..m], n, s);
        if s !in sols {
          var ep :| ep in done[..m] && Solves(ep, n) && Actions(ep.steps) == s;
          assert ep in done;
        }
      } else {
        assert done[m] in done;
      }
    }
  }

  /** Recording keeps the solution list a duplicate-free list of full solutions. */
  lemma {:induction false} RecordKeepsList(sols: seq<seq<int>>, done: seq<Episode>, n: nat)
    requires IsSolutionList(sols, n)
    ensures IsSolutionList(Record(sols, done, n), n)
    decreases |done|
  {
    if done != [] {
      var m := |done| - 1;
      var prev := Record(sols, done[..m], n);
      RecordKeepsList(sols, done[..m], n);
      var b := Actions(done[m].steps);
      if |done[m].steps| == n && NoAttack(b, n) && b !in prev {
        assert (prev + [b])[..|prev|] == prev;
      }
    }
  }

  /** The step list of an episode closed by the queen `x` records exactly the board it
      ends on. */
  lemma FinalActions(g: Generator, x: int, n: nat)
    requires g.placed + 1 == n == |g.board| && StepsMatch(g.steps, g.board, g.placed)
    ensures Actions(g.steps + [EpisodeStep(g.board, x)]) == g.board[g.placed := x]
  {
  }

  /** The round that closes an episode records its final board exactly as the
      environment's step that fills the board does. */
  lemma CloseRecords(sols: seq<seq<int>>, done: seq<Episode>, g: Generator, x: int, n: nat, reward: int)
    requires g.placed + 1 == n == |g.board| && StepsMatch(g.steps, g.board, g.placed)
    ensures Record(sols, done + [Episode(reward, g.steps + [EpisodeStep(g.board, x)])], n) ==
      AddSolution(Record(sols, done, n), g.board[g.placed := x], n)
  {
    FinalActions(g, x, n);
    assert (done + [Episode(reward, g.steps + [EpisodeStep(g.board, x)])])[..|done|] == done;
  }

  /** The frame of the batch generator between two rounds of its loop: the environment
      it plays on, the reset draws, and its local variables. */
  class BatchIterator {
    const env: QueensEnv
    const batchSize: nat
    /** The permutations drawn by the resets, in order. */
    const perms: seq<seq<int>>
    /** The index in `perms` of the draw that started the episode in progress. */
    var drawn: nat
    var batch: seq<Episode>
    var episodeReward: int
    var episodeSteps: seq<EpisodeStep>
    var obs: seq<int>
    /** Every episode completed so far, in order. */
    ghost var done: seq<Episode>
    /** The environment's solutions before the first round. */
    ghost const initial: seq<seq<int>>

    /** The generator keeps the environment valid with a queen still to place, records one
        step per placed queen, and the environment's solutions are those recorded, from
        `initial`, by the episodes completed so far. */
    ghost predicate Valid()
      reads this, env, env.observation
    {
      && env.Valid() && env.currentStep < env.size
      && drawn < |perms|
      && obs == env.observation[..]
      && StepsMatch(episodeSteps, obs, env.currentStep)
      && env.solutions == Record(initial, done, env.size)
    }

    /** The generator state, with `batches` the batches yielded so far. */
    ghost function View(batches: seq<seq<Episode>>): Generator
      reads this, env, env.observation
    {
      Generator(drawn, obs, env.currentStep, episodeReward, episodeSteps, batch, batches, done)
    }

    /** The code before the loop: empty batch and episode, and a first reset. */
    constructor (env: QueensEnv, batchSize: nat, perms: seq<seq<int>>)
      requires env.Valid() && env.size > 0 && |perms| > 0
      requires forall e :: 0 <= e < |perms| ==> IsPermutation(perms[e], env.size)
      modifies env
      ensures Valid() && fresh(env.observation)
      ensures this.env == env && this.batchSize == batchSize && this.perms == perms
      ensures View([]) == Generator(0, perms[0], 0, 0, [], [], [], [])
      ensures initial == env.solutions == old(env.solutions)
    {
      this.env := env;
      initial := env.solutions;
      this.batchSize := batchSize;
      this.perms := perms;
      drawn := 0;
      batch := [];
      episodeReward := 0;
      episodeSteps := [];
      done := [];
      new;
      obs := env.Reset(perms[0]);
    }

    /** One round of the loop: place the queen `action` and record the step; on a full
        board close the episode; returns the batch yielded in this round, if any.
        `batches` stands for the batches yielded before. */
    method Next(action: int, ghost batches: seq<seq<Episode>>) returns (out: seq<seq<Episode>>)
      requires Valid()
      requires env.currentStep + 1 == env.size ==>
        drawn + 1 < |perms| && IsPermutation(perms[drawn + 1], env.size)
      modifies this, env, env.observation
      ensures Valid()
      ensures env.observation == old(env.observation) || fresh(env.observation)
      ensures View(batches + out) == Advance(perms, batchSize, old(View(batches)), action, env.size)
      ensures env.solutions ==
        if old(env.currentStep) + 1 == env.size
        then AddSolution(old(env.solutions), old(obs)[old(env.currentStep) := action], env.size)
        else old(env.solutions)
    {
      ghost var g := View(batches);
      ghost var n := env.size;
      var nextObs, isDone := Play(action);
      var ep := Episode(episodeReward, episodeSteps);
      assert ep == Episode(g.reward + Reward(g.board[g.placed := action], g.placed + 1, n),
                           g.steps + [EpisodeStep(g.board, action)]);
      if isDone {
        AdvanceClose(perms, batchSize, g, action, n, ep);
        out := CloseEpisode();
        if |g.batch| + 1 != batchSize {
          assert batches + out == batches;
        }
      } else {
        AdvancePlace(perms, batchSize, g, action, n);
        obs := nextObs;
        out := [];
        assert batches + out == batches;
      }
    }

    /** The start of a round: the environment places the queen `action`, the step reward
        joins the episode reward, and the step (the board before it and the action) joins
        the episode steps. */
    method Play(action: int) returns (nextObs: seq<int>, isDone: bool)
      requires Valid()
      modifies this`episodeReward, this`episodeSteps, env, env.observation
      ensures env.Valid() && env.observation == old(env.observation)
      ensures env.currentStep == old(env.currentStep) + 1
      ensures nextObs == env.observation[..] == obs[old(env.currentStep) := action]
      ensures episodeReward == old(episodeReward) + Reward(nextObs, env.currentStep, env.size)
      ensures episodeSteps == old(episodeSteps) + [EpisodeStep(obs, action)]
      ensures StepsMatch(episodeSteps, nextObs, env.currentStep)
      ensures isDone <==> env.currentStep == env.size
      ensures env.solutions == if isDone then AddSolution(old(env.solutions), nextObs, env.size) else old(env.solutions)
      ensures isDone ==> env.solutions == Record(initial, done + [Episode(episodeReward, episodeSteps)], env.size)
    {
      ghost var g := View([]);
      var reward;
      nextObs, reward, isDone := env.Step(action);
      episodeReward := episodeReward + reward;
      episodeSteps := episodeSteps + [EpisodeStep(obs, action)];
      if isDone {
        CloseRecords(initial, done, g, action, env.size, episodeReward);
      }
    }

    /** The end of a round that filled the board: the episode joins the batch, the
        environment is reset with the next permutation drawn, and a full batch is yielded
        (returned as the one element of `out`) and emptied. */
    method CloseEpisode() returns (out: seq<seq<Episode>>)
      requires env.Valid() && env.currentStep == env.size > 0
      requires drawn + 1 < |perms| && IsPermutation(perms[drawn + 1], env.size)
      requires env.solutions == Record(initial, done + [Episode(episodeReward, episodeSteps)], env.size)
      modifies this, env
      ensures Valid() && fresh(env.observation) && env.solutions == old(env.solutions)
      ensures drawn == old(drawn) + 1 && obs == perms[drawn] && env.currentStep == 0
      ensures episodeReward == 0 && episodeSteps == []
      ensures done == old(done) + [Episode(old(episodeReward), old(episodeSteps))]
      ensures |old(batch)| + 1 == batchSize ==>
        out == [old(batch) + [Episode(old(episodeReward), old(episodeSteps))]] && batch == []
      ensures |old(batch)| + 1 != batchSize ==>
        out == [] && batch == old(batch) + [Episode(old(episodeReward), old(episodeSteps))]
    {
      var ep := Episode(episodeReward, episodeSteps);
      batch := batch + [ep];
      episodeReward := 0;
      episodeSteps := [];
      done := done + [ep];
      drawn := drawn + 1;
      obs := env.Reset(perms[drawn]);
      out := [];
      if |batch| == batchSize {
        out := [batch];
        batch := [];
      }
    }
  }

  /** The episode generator, run for as many rounds as there are `actions`: `actions`
      are the sampled actions in order, and `perms[e]` the permutation drawn by the reset
      that starts episode `e` (one for the first reset and one after each completed
      episode). Returns the batches yielded, each of `batchSize` completed episodes, in
      order; the episodes completed after the last batch wait in the batch being filled. */
  method IterateBatches(env: QueensEnv, batchSize: nat, actions: seq<int>, perms: seq<seq<int>>)
    returns (batches: seq<seq<Episode>>)
    requires env.Valid() && env.size > 0
    requires |perms| > |Chunks(actions, env.size)|
    requires forall e :: 0 <= e < |perms| ==> IsPermutation(perms[e], env.size)
    modifies env
    ensures env.Valid()
    ensures batchSize == 0 ==> batches == []
    ensures forall c :: 0 <= c < |batches| ==> |batches[c]| == batchSize
    ensures Concat(batches) <= Completed(perms, actions, env.size)
    ensures batchSize > 0 ==> |Completed(perms, actions, env.size)| - |Concat(batches)| < batchSize
    ensures env.currentStep == |Pending(actions, env.size)|
    ensures env.observation[..] == BoardAfter(perms[|Chunks(actions, env.size)|], Pending(actions, env.size))
    ensures env.solutions == Record(old(env.solutions), Completed(perms, actions, env.size), env.size)
    ensures old(env.solutions) <= env.solutions
    ensures forall ep :: ep in Completed(perms, actions, env.size) && Solves(ep, env.size) ==>
      Actions(ep.steps) in env.solutions
    ensures forall s :: s in env.solutions ==>
      || s in old(env.solutions)
      || exists ep :: ep in Completed(perms, actions, env.size) && Solves(ep, env.size) && Actions(ep.steps) == s
  {
    var n := env.size;
    forall e | 0 <= e < |perms| ensures |perms[e]| == n {
      assert IsPermutation(perms[e], n);
    }
    var it := new BatchIterator(env, batchSize, perms);
    batches := [];
    var t := 0;
    assert actions[..0] == [];
    while t < |actions|
      invariant 0 <= t <= |actions|
      invariant it.Valid() && it.env == env && it.batchSize == batchSize && it.perms == perms
      invariant env.size == n && fresh(env.observation)
      invariant |Chunks(actions[..t], n)| <= |Chunks(actions, n)|
      invariant forall e :: 0 <= e < |perms| ==> |perms[e]| == n
      invariant it.View(batches) == Generate(perms, batchSize, actions[..t], n)
      invariant it.initial == old(env.solutions)
    {
      TakeOneMore(actions, t);
      ChunksPrefix(actions[..t + 1], actions[t + 1..], n);
      ChunksAppend(actions[..t], actions[t], n);
      GenerateAppend(perms, batchSize, actions[..t], actions[t], n);
      var out := it.Next(actions[t], batches);
      batches := batches + out;
      t := t + 1;
    }
    assert actions[..t] == actions;
    GenerateInv(perms, batchSize, actions, n);
    GenerateMeaning(perms, batchSize, actions, n);
    var completed := Completed(perms, actions, n);
    RecordGrows(old(env.solutions), completed, n);
    RecordComplete(old(env.solutions), completed, n);
    forall s | s in env.solutions
      ensures s in old(env.solutions) || exists ep :: ep in completed && Solves(ep, n) && Actions(ep.steps) == s
    {
      RecordSound(old(env.solutions), completed, n, s);
    }
  }
}
