/**
  Episodes. An episode starts from a reset permutation and places one queen per step
  until the board is full; it records, for every step, the board before the step and
  the action taken, and sums the step rewards.
*/
module Episodes {
  import opened Board

  datatype EpisodeStep = EpisodeStep(observation: seq<int>, action: int)
  datatype Episode = Episode(reward: int, steps: seq<EpisodeStep>)

  /** The board after the queens `acts` were placed, in order, on the board `p`
      (an episode never takes more actions than the board has columns). */
  function BoardAfter(p: seq<int>, acts: seq<int>): seq<int>
  {
    if |acts| <= |p| then acts + p[|acts|..] else acts
  }

  /** Placing one more queen overwrites exactly the next column of the board. */
  lemma BoardAfterPlace(p: seq<int>, acts: seq<int>, a: int)
    requires |acts| < |p|
    ensures BoardAfter(p, acts + [a]) == BoardAfter(p, acts)[|acts| := a]
  {
    var l := BoardAfter(p, acts + [a]);
    var r := BoardAfter(p, acts)[|acts| := a];
    assert |l| == |r|;
    forall k | 0 <= k < |l| ensures l[k] == r[k] {
      if k < |acts| {
      } else if k == |acts| {
      } else {
        assert l[k] == p[k];
      }
    }
  }

  /** The episode that starts from the reset board `p` and takes the actions `acts`. */
  function RunEpisode(p: seq<int>, acts: seq<int>): Episode
    decreases |acts|
  {
    if acts == [] then Episode(0, [])
    else
      var k := |acts| - 1;
      var prev := RunEpisode(p, acts[..k]);
      Episode(prev.reward + Reward(BoardAfter(p, acts), |acts|, |p|),
              prev.steps + [EpisodeStep(BoardAfter(p, acts[..k]), acts[k])])
  }

  /** Taking one more action appends one step, recording the board before it, and adds
      the reward of the board after it. */
  lemma RunEpisodeAppend(p: seq<int>, acts: seq<int>, a: int)
    requires |acts| < |p|
    ensures RunEpisode(p, acts + [a]) == Episode(
      RunEpisode(p, acts).reward + Reward(BoardAfter(p, acts)[|acts| := a], |acts| + 1, |p|),
      RunEpisode(p, acts).steps + [EpisodeStep(BoardAfter(p, acts), a)])
  {
    assert (acts + [a])[..|acts|] == acts;
    BoardAfterPlace(p, acts, a);
  }

  /** An episode records one step per action. */
  lemma {:induction false} StepsLength(p: seq<int>, acts: seq<int>)
    ensures |RunEpisode(p, acts).steps| == |acts|
    decreases |acts|
  {
    if acts != [] {
      StepsLength(p, acts[..|acts| - 1]);
    }
  }

  /** Step `k` records the board reached after the first `k` actions, and action `k`. */
  lemma {:induction false} StepAt(p: seq<int>, acts: seq<int>, k: nat)
    requires k < |acts| <= |p|
    ensures k < |RunEpisode(p, acts).steps|
    ensures RunEpisode(p, acts).steps[k] == EpisodeStep(BoardAfter(p, acts[..k]), acts[k])
    decreases |acts|
  {
    var m := |acts| - 1;
    StepsLength(p, acts[..m]);
    if k < m {
      StepAt(p, acts[..m], k);
      assert acts[..m][..k] == acts[..k];
    }
  }

  /** An episode records one step per action: the board before the step and the action. */
  lemma EpisodeSteps(p: seq<int>, acts: seq<int>)
    requires |acts| <= |p|
    ensures |RunEpisode(p, acts).steps| == |acts|
    ensures forall k :: 0 <= k < |acts| ==>
      RunEpisode(p, acts).steps[k] == EpisodeStep(acts[..k] + p[k..], acts[k])
  {
    StepsLength(p, acts);
    forall k | 0 <= k < |acts|
      ensures RunEpisode(p, acts).steps[k] == EpisodeStep(acts[..k] + p[k..], acts[k])
    {
      StepAt(p, acts, k);
    }
  }

  /** The actions of a list of steps, in order. */
  function Actions(steps: seq<EpisodeStep>): (r: seq<int>)
    ensures |r| == |steps| && forall k :: 0 <= k < |steps| ==> r[k] == steps[k].action
  {
    seq(|steps|, k requires 0 <= k < |steps| => steps[k].action)
  }

  /** The board a full episode ends on is its own actions: every queen of the reset
      board is overwritten. */
  lemma FinalBoard(p: seq<int>, acts: seq<int>)
    requires |acts| == |p|
    ensures BoardAfter(p, acts) == acts
    ensures Actions(RunEpisode(p, acts).steps) == acts
  {
    EpisodeSteps(p, acts);
  }

  /** The step rewards of an episode so far add up to zero while no two placed queens
      attack (plus the bonus once the board is full), and to at most minus the number of
      conflicting pairs otherwise. */
  lemma {:induction false} PrefixReward(p: seq<int>, acts: seq<int>)
    requires |acts| <= |p|
    ensures Conflicts(acts, |acts|) == 0 ==>
      RunEpisode(p, acts).reward == if |acts| == |p| then |p| * |p| else 0
    ensures Conflicts(acts, |acts|) > 0 ==>
      RunEpisode(p, acts).reward <= -(Conflicts(acts, |acts|) as int)
    decreases |acts|
  {
    if acts != [] {
      var k := |acts| - 1;
      var b := BoardAfter(p, acts);
      assert b[..|acts|] == acts[..|acts|] == acts;
      ConflictsFrame(b, acts, |acts|);
      ConflictsZeroIff(b, |acts|);
      PrefixReward(p, acts[..k]);
      ConflictsFrame(acts[..k], acts, k);
      ConflictsGrow(acts, k);
    }
  }

  /** A completed episode earns `size * size` when it ends on a board without conflicts,
      and a negative reward otherwise. */
  lemma EpisodeReward(p: seq<int>, acts: seq<int>)
    requires |acts| == |p|
    ensures NoAttack(acts, |acts|) ==> RunEpisode(p, acts).reward == |p| * |p|
    ensures !NoAttack(acts, |acts|) ==> RunEpisode(p, acts).reward < 0
  {
    PrefixReward(p, acts);
    ConflictsZeroIff(acts, |acts|);
  }

  /** The episode ends on a board of `n` queens without conflicts. */
  predicate Solves(ep: Episode, n: nat)
  {
    |ep.steps| == n && NoAttack(Actions(ep.steps), n)
  }
}
