/**
  How a run of actions splits into episodes: every `n` actions on a board of size `n`
  complete one episode, and each episode starts from the permutation drawn by the reset
  before it.
*/
module Schedule {
  import opened Board
  import opened Episodes

  /** The actions of the episodes completed within `actions`, `n` actions each, in order. */
  function Chunks(actions: seq<int>, n: nat): (cs: seq<seq<int>>)
    requires n > 0
    ensures forall c :: c in cs ==> |c| == n
    decreases |actions|
  {
    if |actions| < n then [] else [actions[..n]] + Chunks(actions[n..], n)
  }

  /** The actions of the episode still in progress after `actions`. */
  function Pending(actions: seq<int>, n: nat): (p: seq<int>)
    requires n > 0
    ensures |p| < n
    decreases |actions|
  {
    if |actions| < n then actions else Pending(actions[n..], n)
  }

  /** The concatenation of a list of lists. */
  function Concat<T>(xss: seq<seq<T>>): seq<T>
  {
    if xss == [] then [] else Concat(xss[..|xss| - 1]) + xss[|xss| - 1]
  }

  lemma {:induction false} ConcatAppend<T>(xss: seq<seq<T>>, ys: seq<seq<T>>)
    ensures Concat(xss + ys) == Concat(xss) + Concat(ys)
    decreases |ys|
  {
    if ys == [] {
      assert xss + ys == xss;
    } else {
      var l := |ys| - 1;
      assert (xss + ys)[..|xss + ys| - 1] == xss + ys[..l];
      assert (xss + ys)[|xss + ys| - 1] == ys[l];
      ConcatAppend(xss, ys[..l]);
    }
  }

  /** Every `n`-th action closes an episode: after one more action either the episode in
      progress grows by it, or it is completed and a new one starts empty. */
  lemma {:induction false} ChunksAppend(actions: seq<int>, x: int, n: nat)
    requires n > 0
    ensures |Pending(actions, n)| + 1 < n ==>
      Chunks(actions + [x], n) == Chunks(actions, n)
      && Pending(actions + [x], n) == Pending(actions, n) + [x]
    ensures |Pending(actions, n)| + 1 == n ==>
      Chunks(actions + [x], n) == Chunks(actions, n) + [Pending(actions, n) + [x]]
      && Pending(actions + [x], n) == []
    decreases |actions|
  {
    if |actions| >= n {
      assert (actions + [x])[..n] == actions[..n];
      assert (actions + [x])[n..] == actions[n..] + [x];
      ChunksAppend(actions[n..], x, n);
    } else if |actions| + 1 == n {
      assert (actions + [x])[..n] == actions + [x];
      assert (actions + [x])[n..] == [];
      assert Chunks([], n) == [];
    }
  }

  /** The completed episodes and the one in progress partition the actions, in order. */
  lemma {:induction false} ChunksPartition(actions: seq<int>, n: nat)
    requires n > 0
    ensures Concat(Chunks(actions, n)) + Pending(actions, n) == actions
    decreases |actions|
  {
    if |actions| >= n {
      var rest := actions[n..];
      ChunksPartition(rest, n);
      ConcatAppend([actions[..n]], Chunks(rest, n));
      assert Concat([actions[..n]]) == actions[..n] by {
        assert [actions[..n]][..0] == [];
      }
      assert actions == actions[..n] + rest;
    }
  }

  /** Each completed episode took `n` actions. */
  lemma {:induction false} ChunksLength(actions: seq<int>, n: nat)
    requires n > 0
    ensures |actions| == |Chunks(actions, n)| * n + |Pending(actions, n)|
    decreases |actions|
  {
    if |actions| >= n {
      var rest := actions[n..];
      ChunksLength(rest, n);
      MulSucc(|Chunks(rest, n)|, n);
    }
  }

  lemma MulSucc(c: nat, n: nat)
    ensures (c + 1) * n == c * n + n
  {
  }

  lemma {:induction false} MulMono(x: nat, y: nat, n: nat)
    requires x <= y
    ensures x * n <= y * n
    decreases y
  {
    if x < y {
      MulMono(x, y - 1, n);
    }
  }

  lemma DivUnique(q: nat, r: nat, n: nat, len: nat)
    requires n > 0 && r < n && len == q * n + r
    ensures len / n == q && len % n == r
  {
    var q', r' := len / n, len % n;
    assert len == q' * n + r';
    if q' < q {
      MulMono(q' + 1, q, n);
      assert false;
    } else if q < q' {
      MulMono(q + 1, q', n);
      assert false;
    }
  }

  /** `|actions| / n` episodes are complete and `|actions| % n` actions are pending. */
  lemma ChunkCount(actions: seq<int>, n: nat)
    requires n > 0
    ensures |Chunks(actions, n)| == |actions| / n
    ensures |Pending(actions, n)| == |actions| % n
  {
    ChunksLength(actions, n);
    DivUnique(|Chunks(actions, n)|, |Pending(actions, n)|, n, |actions|);
  }

  /** The episodes completed within a prefix of the actions are the first episodes
      completed within all of them. */
  lemma {:induction false} ChunksPrefix(actions: seq<int>, more: seq<int>, n: nat)
    requires n > 0
    ensures Chunks(actions, n) <= Chunks(actions + more, n)
    decreases |more|
  {
    if more == [] {
      assert actions + more == actions;
    } else {
      var l := |more| - 1;
      ChunksPrefix(actions, more[..l], n);
      assert actions + more == (actions + more[..l]) + [more[l]];
      ChunksAppend(actions + more[..l], more[l], n);
    }
  }

  lemma TakeOneMore<T>(s: seq<T>, t: nat)
    requires t < |s|
    ensures s[..t + 1] == s[..t] + [s[t]] && s == s[..t + 1] + s[t + 1..]
  {
  }

  /** The episodes run on the action lists `chunks`, episode `e` starting from `perms[e]`. */
  function RunAll(perms: seq<seq<int>>, chunks: seq<seq<int>>): (eps: seq<Episode>)
    requires |perms| >= |chunks|
    ensures |eps| == |chunks|
  {
    if chunks == [] then []
    else
      var e := |chunks| - 1;
      RunAll(perms, chunks[..e]) + [RunEpisode(perms[e], chunks[e])]
  }

  lemma {:induction false} RunAllAt(perms: seq<seq<int>>, chunks: seq<seq<int>>)
    requires |perms| >= |chunks|
    ensures |RunAll(perms, chunks)| == |chunks|
    ensures forall e :: 0 <= e < |chunks| ==> RunAll(perms, chunks)[e] == RunEpisode(perms[e], chunks[e])
  {
    if chunks != [] {
      var l := |chunks| - 1;
      RunAllAt(perms, chunks[..l]);
    }
  }

  /** The episodes completed while taking the actions `actions` on a board of size `n`;
      `perms[e]` is the permutation drawn by the reset that starts episode `e`. */
  function Completed(perms: seq<seq<int>>, actions: seq<int>, n: nat): seq<Episode>
    requires n > 0 && |perms| > |Chunks(actions, n)|
  {
    RunAll(perms, Chunks(actions, n))
  }

  /** One more action completes an episode exactly when it fills the board. */
  lemma CompletedAppend(perms: seq<seq<int>>, actions: seq<int>, x: int, n: nat)
    requires n > 0 && |perms| > |Chunks(actions + [x], n)|
    ensures |Chunks(actions, n)| <= |Chunks(actions + [x], n)|
    ensures |Pending(actions, n)| + 1 < n ==>
      Completed(perms, actions + [x], n) == Completed(perms, actions, n)
    ensures |Pending(actions, n)| + 1 == n ==>
      Completed(perms, actions + [x], n) == Completed(perms, actions, n)
        + [RunEpisode(perms[|Chunks(actions, n)|], Pending(actions, n) + [x])]
  {
    ChunksAppend(actions, x, n);
    if |Pending(actions, n)| + 1 == n {
      var cs := Chunks(actions, n);
      assert (cs + [Pending(actions, n) + [x]])[..|cs|] == cs;
    }
  }

  /** Every completed episode has exactly `n` steps, recording the board before each step
      and the action taken; it ends on the board made of its actions, and earns `n * n`
      exactly when that board is free of conflicts, a negative reward otherwise. */
  lemma CompletedEpisode(perms: seq<seq<int>>, actions: seq<int>, n: nat, e: nat)
    requires n > 0 && |perms| > |Chunks(actions, n)|
    requires forall i :: 0 <= i < |perms| ==> |perms[i]| == n
    requires e < |Chunks(actions, n)|
    ensures var ep := Completed(perms, actions, n)[e];
      var acts := Chunks(actions, n)[e];
      && |ep.steps| == n
      && (forall k :: 0 <= k < n ==> ep.steps[k] == EpisodeStep(acts[..k] + perms[e][k..], acts[k]))
      && Actions(ep.steps) == acts
      && (NoAttack(acts, n) ==> ep.reward == n * n)
      && (!NoAttack(acts, n) ==> ep.reward < 0)
  {
    var acts := Chunks(actions, n)[e];
    assert acts in Chunks(actions, n);
    RunAllAt(perms, Chunks(actions, n));
    EpisodeSteps(perms[e], acts);
    FinalBoard(perms[e], acts);
    EpisodeReward(perms[e], acts);
  }
}
