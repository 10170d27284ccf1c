/**
  The actions an agent may take on a board of size `n`. The environment declares the
  discrete space `{0, ..., n - 2}` (one row short of the board), while the sampler draws
  rows from `{0, ..., n - 1}`. With the declared space a full board always has two queens
  in one row, so no episode ever solves the puzzle; with the sampled space a solution
  exists, and every board an episode records stays inside the declared observation space
  (rows `0 .. n - 1`).
*/
module ActionSpace {
  import opened Board
  import opened Episodes

  /** The action space as declared: `n - 1` discrete actions. */
  predicate InDeclaredSpace(a: int, n: nat)
  {
    0 <= a < n - 1
  }

  /** The action space the sampler draws from, and the one the rest of the model relies on:
      one action per row of the board. */
  predicate InActionSpace(a: int, n: nat)
  {
    0 <= a < n
  }

  /** Every value of the board is a row of the board (the declared observation space). */
  predicate InObservationSpace(b: seq<int>, n: nat)
  {
    |b| == n && forall k :: 0 <= k < n ==> 0 <= b[k] < n
  }

  /** Pairwise different values in `[0, r)` are at most `r`. */
  lemma {:induction false} DistinctBound(s: seq<int>, r: nat)
    requires forall k :: 0 <= k < |s| ==> 0 <= s[k] < r
    requires forall i, j :: 0 <= i < j < |s| ==> s[i] != s[j]
    ensures |s| <= r
    decreases |s|
  {
    if s != [] {
      var m := |s| - 1;
      var x := s[m];
      var t := seq(m, k requires 0 <= k < m => if s[k] > x then s[k] - 1 else s[k]);
      forall k | 0 <= k < m ensures 0 <= t[k] < r - 1 {
        assert s[k] != s[m];
      }
      forall i, j | 0 <= i < j < m ensures t[i] != t[j] {
        assert s[i] != s[j] && s[i] != s[m] && s[j] != s[m];
      }
      DistinctBound(t, r - 1);
    }
  }

  /** A full board whose queens sit in the declared action space always has two queens in
      one row, hence a conflict: the episode that builds it earns a negative reward and
      never records a solution. */
  lemma DeclaredSpaceNeverSolves(p: seq<int>, acts: seq<int>)
    requires |acts| == |p| > 0
    requires forall k :: 0 <= k < |acts| ==> InDeclaredSpace(acts[k], |p|)
    ensures !NoAttack(acts, |acts|)
    ensures RunEpisode(p, acts).reward < 0
  {
    var n := |p|;
    if NoAttack(acts, n) {
      forall i, j | 0 <= i < j < n ensures acts[i] != acts[j] {
        assert !Attacks(acts, i, j);
      }
      DistinctBound(acts, n - 1);
    }
    EpisodeReward(p, acts);
  }

  /** A solution of the eight queens puzzle. */
  const EightQueens: seq<int> := [0, 4, 7, 5, 2, 6, 1, 3]

  /** In the sampled action space an episode on the 8-by-8 board can solve the puzzle:
      placing the queens of `EightQueens`, whatever the reset board, earns the full
      `8 * 8` bonus. */
  lemma SampledSpaceSolves(p: seq<int>)
    requires |p| == 8
    ensures forall k :: 0 <= k < 8 ==> InActionSpace(EightQueens[k], 8)
    ensures NoAttack(EightQueens, 8)
    ensures RunEpisode(p, EightQueens).reward == 64
  {
    var b := EightQueens;
    forall i, j | 0 <= i < j < 8 ensures !Attacks(b, i, j) {
    }
    EpisodeReward(p, b);
  }

  /** With actions from the sampled space, every board an episode records (the board
      before each step) is inside the observation space. */
  lemma EpisodeObservations(p: seq<int>, acts: seq<int>)
    requires IsPermutation(p, |p|) && |acts| <= |p|
    requires forall k :: 0 <= k < |acts| ==> InActionSpace(acts[k], |p|)
    ensures |RunEpisode(p, acts).steps| == |acts|
    ensures forall k :: 0 <= k < |acts| ==>
      InObservationSpace(RunEpisode(p, acts).steps[k].observation, |p|)
  {
    var n := |p|;
    StepsLength(p, acts);
    forall k | 0 <= k < |acts|
      ensures InObservationSpace(RunEpisode(p, acts).steps[k].observation, n)
    {
      StepAt(p, acts, k);
      var b := BoardAfter(p, acts[..k]);
      assert b == acts[..k] + p[k..];
      forall c | 0 <= c < n ensures 0 <= b[c] < n {
        if c < k {
          assert b[c] == acts[c];
        } else {
          assert b[c] == p[c];
        }
      }
    }
  }
}
