/**
  Elite selection: of a batch of episodes, keep those whose reward reaches the bound
  (a percentile of the batch's rewards, computed by the caller), and flatten their steps,
  in order, into two parallel lists of training inputs (boards) and targets (actions).
*/
module Filter {
  import opened Episodes
  import opened Schedule

  /** The episodes of `batch` whose reward is at least `bound`, in their original order. */
  function Elite(batch: seq<Episode>, bound: real): (r: seq<Episode>)
    ensures |r| <= |batch|
    decreases |batch|
  {
    if batch == [] then []
    else
      var k := |batch| - 1;
      Elite(batch[..k], bound) + (if batch[k].reward as real >= bound then [batch[k]] else [])
  }

  /** The step lists of the episodes `eps`, in order. */
  function StepLists(eps: seq<Episode>): (r: seq<seq<EpisodeStep>>)
    ensures |r| == |eps| && forall k :: 0 <= k < |eps| ==> r[k] == eps[k].steps
  {
    seq(|eps|, k requires 0 <= k < |eps| => eps[k].steps)
  }

  /** The steps of the episodes `eps`, one episode after the other. */
  function AllSteps(eps: seq<Episode>): seq<EpisodeStep>
  {
    Concat(StepLists(eps))
  }

  /** The total number of steps of the episodes `eps`. */
  function StepCount(eps: seq<Episode>): nat
    decreases |eps|
  {
    if eps == [] then 0 else StepCount(eps[..|eps| - 1]) + |eps[|eps| - 1].steps|
  }

  /** The boards of a list of steps, in order. */
  function Observations(steps: seq<EpisodeStep>): (r: seq<seq<int>>)
    ensures |r| == |steps| && forall k :: 0 <= k < |steps| ==> r[k] == steps[k].observation
  {
    seq(|steps|, k requires 0 <= k < |steps| => steps[k].observation)
  }

  lemma ObservationsAppend(a: seq<EpisodeStep>, b: seq<EpisodeStep>)
    ensures Observations(a + b) == Observations(a) + Observations(b)
  {
  }

  lemma ActionsAppend(a: seq<EpisodeStep>, b: seq<EpisodeStep>)
    ensures Actions(a + b) == Actions(a) + Actions(b)
  {
  }

  /** One more episode of the batch is kept or skipped according to its own reward. */
  lemma ElitePrefix(batch: seq<Episode>, i: nat, bound: real)
    requires i < |batch|
    ensures batch[i].reward as real >= bound ==>
      Elite(batch[..i + 1], bound) == Elite(batch[..i], bound) + [batch[i]]
    ensures batch[i].reward as real < bound ==>
      Elite(batch[..i + 1], bound) == Elite(batch[..i], bound)
  {
    assert batch[..i + 1][..i] == batch[..i];
    assert Elite(batch[..i], bound) + [] == Elite(batch[..i], bound);
  }

  lemma AllStepsSnoc(eps: seq<Episode>, e: Episode)
    ensures AllSteps(eps + [e]) == AllSteps(eps) + e.steps
  {
    assert StepLists(eps + [e]) == StepLists(eps) + [e.steps];
    ConcatAppend(StepLists(eps), [e.steps]);
    assert [e.steps][..0] == [];
  }

  /** The training lists for `batch`: the boards and the actions of every step of every
      episode whose reward reaches `rewardBound`, episode after episode, step after step. */
  method FilterBatch(batch: seq<Episode>, rewardBound: real) returns (trainObs: seq<seq<int>>, trainAct: seq<int>)
    ensures trainObs == Observations(AllSteps(Elite(batch, rewardBound)))
    ensures trainAct == Actions(AllSteps(Elite(batch, rewardBound)))
  {
    trainObs, trainAct := [], [];
    for i := 0 to |batch|
      invariant trainObs == Observations(AllSteps(Elite(batch[..i], rewardBound)))
      invariant trainAct == Actions(AllSteps(Elite(batch[..i], rewardBound)))
    {
      ElitePrefix(batch, i, rewardBound);
      var episode := batch[i];
      if episode.reward as real < rewardBound {
        continue;
      }
      ghost var kept := Elite(batch[..i], rewardBound);
      AllStepsSnoc(kept, episode);
      ObservationsAppend(AllSteps(kept), episode.steps);
      ActionsAppend(AllSteps(kept), episode.steps);
      trainObs := trainObs + Observations(episode.steps);
      trainAct := trainAct + Actions(episode.steps);
    }
    assert batch[..|batch|] == batch;
  }

  /** An episode is kept exactly when it is in the batch and its reward reaches the bound. */
  lemma {:induction false} EliteMembership(batch: seq<Episode>, bound: real, ep: Episode)
    ensures ep in Elite(batch, bound) <==> ep in batch && ep.reward as real >= bound
    decreases |batch|
  {
    if batch != [] {
      var k := |batch| - 1;
      EliteMembership(batch[..k], bound, ep);
      assert batch == batch[..k] + [batch[k]];
    }
  }

  /** Selection keeps the order of the batch: selecting from two parts one after the
      other gives the two selections one after the other. */
  lemma {:induction false} EliteAppend(a: seq<Episode>, b: seq<Episode>, bound: real)
    ensures Elite(a + b, bound) == Elite(a, bound) + Elite(b, bound)
    decreases |b|
  {
    if b == [] {
      assert a + b == a;
    } else {
      var k := |b| - 1;
      assert (a + b)[..|a + b| - 1] == a + b[..k];
      EliteAppend(a, b[..k], bound);
    }
  }

  /** A bound no greater than any reward (the 0th percentile) keeps the whole batch. */
  lemma {:induction false} EliteKeepsAll(batch: seq<Episode>, bound: real)
    requires forall k :: 0 <= k < |batch| ==> batch[k].reward as real >= bound
    ensures Elite(batch, bound) == batch
    decreases |batch|
  {
    if batch != [] {
      var k := |batch| - 1;
      EliteKeepsAll(batch[..k], bound);
      assert batch == batch[..k] + [batch[k]];
    }
  }

  /** A bound no greater than the best reward (any percentile) keeps at least one episode. */
  lemma EliteNonEmpty(batch: seq<Episode>, bound: real, best: Episode)
    requires best in batch && best.reward as real >= bound
    ensures |Elite(batch, bound)| > 0
  {
    EliteMembership(batch, bound, best);
  }

  /** The flattened steps number as many as the episodes' steps together. */
  lemma {:induction false} AllStepsLength(eps: seq<Episode>)
    ensures |AllSteps(eps)| == StepCount(eps)
    decreases |eps|
  {
    if eps != [] {
      var m := |eps| - 1;
      AllStepsLength(eps[..m]);
      AllStepsSnoc(eps[..m], eps[m]);
      assert eps[..m] + [eps[m]] == eps;
    }
  }

  /** When every episode took `n` steps, the flattened steps number `n` per episode. */
  lemma {:induction false} StepCountUniform(eps: seq<Episode>, n: nat)
    requires forall k :: 0 <= k < |eps| ==> |eps[k].steps| == n
    ensures StepCount(eps) == |eps| * n
    decreases |eps|
  {
    if eps != [] {
      var m := |eps| - 1;
      StepCountUniform(eps[..m], n);
      assert (m + 1) * n == m * n + n;
    }
  }

  /** Every flattened step is a step of one of the episodes. */
  lemma {:induction false} AllStepsFrom(eps: seq<Episode>, k: nat)
    requires k < |AllSteps(eps)|
    ensures exists e :: e in eps && AllSteps(eps)[k] in e.steps
    decreases |eps|
  {
    var m := |eps| - 1;
    var prev := AllSteps(eps[..m]);
    AllStepsSnoc(eps[..m], eps[m]);
    assert eps[..m] + [eps[m]] == eps;
    if k < |prev| {
      AllStepsFrom(eps[..m], k);
      var e :| e in eps[..m] && prev[k] in e.steps;
      assert e in eps;
    } else {
      assert AllSteps(eps)[k] == eps[m].steps[k - |prev|];
      assert AllSteps(eps)[k] in eps[m].steps;
    }
  }

  /** The two training lists are parallel: equally long, as long as the kept episodes'
      steps together, and their `k`-th entries are the board and the action of one step
      of an episode of the batch whose reward reaches the bound. */
  lemma TrainingPairs(batch: seq<Episode>, rewardBound: real, k: nat)
    requires k < |AllSteps(Elite(batch, rewardBound))|
    ensures var steps := AllSteps(Elite(batch, rewardBound));
      && |Observations(steps)| == |Actions(steps)| == StepCount(Elite(batch, rewardBound))
      && exists e :: e in batch && e.reward as real >= rewardBound
           && EpisodeStep(Observations(steps)[k], Actions(steps)[k]) in e.steps
  {
    var elite := Elite(batch, rewardBound);
    AllStepsLength(elite);
    AllStepsFrom(elite, k);
    var e :| e in elite && AllSteps(elite)[k] in e.steps;
    EliteMembership(batch, rewardBound, e);
  }

  /** Completed episodes all take `n` steps, so the training lists hold `n` entries per
      kept episode. */
  lemma TrainingSize(batch: seq<Episode>, rewardBound: real, n: nat)
    requires forall k :: 0 <= k < |batch| ==> |batch[k].steps| == n
    ensures |Observations(AllSteps(Elite(batch, rewardBound)))| == |Elite(batch, rewardBound)| * n
    ensures |Actions(AllSteps(Elite(batch, rewardBound)))| == |Elite(batch, rewardBound)| * n
  {
    var elite := Elite(batch, rewardBound);
    forall k | 0 <= k < |elite| ensures |elite[k].steps| == n {
      EliteMembership(batch, rewardBound, elite[k]);
    }
    StepCountUniform(elite, n);
    AllStepsLength(elite);
  }
}
