/**
  The N-Queens board of the environment: a board holds one queen per column,
  `b[c]` being the row of the queen in column `c`. Two queens conflict when they
  share a row or a diagonal. The reward the environment hands out is minus the
  number of conflicting pairs among the queens placed so far, plus a bonus of
  `size * size` for a full board without conflicts.
*/
module Board {

  /** The queens in columns `i` and `j` share a row or a diagonal. */
  predicate Attacks(b: seq<int>, i: nat, j: nat)
    requires i < |b| && j < |b|
  {
    b[i] == b[j] || b[i] - b[j] == i - j || b[i] - b[j] == j - i
  }

  /** No two of the first `k` queens attack each other. */
  predicate NoAttack(b: seq<int>, k: nat)
    requires k <= |b|
  {
    forall i, j :: 0 <= i < j < k ==> !Attacks(b, i, j)
  }

  /** The number of columns `j` in `[lo, hi)` whose queen the queen in column `i` attacks
      (the inner loop of the reward computation). */
  function RowCount(b: seq<int>, i: nat, lo: nat, hi: nat): nat
    requires i < |b| && hi <= |b|
    decreases hi
  {
    if hi <= lo then 0
    else RowCount(b, i, lo, hi - 1) + (if Attacks(b, i, hi - 1) then 1 else 0)
  }

  /** The number of attacking pairs `(i', j)` with `i' < i` and `i' < j < n`
      (the outer loop of the reward computation after `i` rounds). */
  function PairCount(b: seq<int>, i: nat, n: nat): nat
    requires i <= n <= |b|
  {
    if i == 0 then 0 else PairCount(b, i - 1, n) + RowCount(b, i - 1, i, n)
  }

  /** The number of attacking pairs among the first `k` queens. */
  function Conflicts(b: seq<int>, k: nat): nat
    requires k <= |b|
  {
    PairCount(b, k, k)
  }

  lemma {:induction false} RowCountZeroIff(b: seq<int>, i: nat, lo: nat, hi: nat)
    requires i < |b| && hi <= |b|
    ensures RowCount(b, i, lo, hi) == 0 <==> forall j :: lo <= j < hi ==> !Attacks(b, i, j)
    decreases hi
  {
    if hi > lo {
      RowCountZeroIff(b, i, lo, hi - 1);
    }
  }

  lemma {:induction false} PairCountZeroIff(b: seq<int>, i: nat, n: nat)
    requires i <= n <= |b|
    ensures PairCount(b, i, n) == 0 <==>
            forall i', j :: 0 <= i' < i && i' < j < n ==> !Attacks(b, i', j)
  {
    if i > 0 {
      PairCountZeroIff(b, i - 1, n);
      RowCountZeroIff(b, i - 1, i, n);
    }
  }

  /** The count of conflicting pairs is zero exactly when no two placed queens attack. */
  lemma ConflictsZeroIff(b: seq<int>, k: nat)
    requires k <= |b|
    ensures Conflicts(b, k) == 0 <==> NoAttack(b, k)
  {
    PairCountZeroIff(b, k, k);
  }

  lemma {:induction false} RowCountFrame(b: seq<int>, c: seq<int>, i: nat, lo: nat, hi: nat)
    requires i < lo && i < |b| && i < |c| && hi <= |b| && hi <= |c| && b[..hi] == c[..hi]
    ensures RowCount(b, i, lo, hi) == RowCount(c, i, lo, hi)
    decreases hi
  {
    if hi > lo {
      assert b[i] == b[..hi][i] && b[hi - 1] == b[..hi][hi - 1];
      assert c[i] == c[..hi][i] && c[hi - 1] == c[..hi][hi - 1];
      assert b[..hi - 1] == b[..hi][..hi - 1] && c[..hi - 1] == c[..hi][..hi - 1];
      RowCountFrame(b, c, i, lo, hi - 1);
    }
  }

  lemma {:induction false} PairCountFrame(b: seq<int>, c: seq<int>, i: nat, n: nat)
    requires i <= n <= |b| && n <= |c| && b[..n] == c[..n]
    ensures PairCount(b, i, n) == PairCount(c, i, n)
  {
    if i > 0 {
      PairCountFrame(b, c, i - 1, n);
      RowCountFrame(b, c, i - 1, i, n);
    }
  }

  /** The conflict count of the first `k` queens depends on those queens only. */
  lemma ConflictsFrame(b: seq<int>, c: seq<int>, k: nat)
    requires k <= |b| && k <= |c| && b[..k] == c[..k]
    ensures Conflicts(b, k) == Conflicts(c, k)
  {
    PairCountFrame(b, c, k, k);
  }

  lemma {:induction false} PairCountGrows(b: seq<int>, i: nat, n: nat)
    requires i <= n < |b|
    ensures PairCount(b, i, n) <= PairCount(b, i, n + 1)
  {
    if i > 0 {
      PairCountGrows(b, i - 1, n);
    }
  }

  /** Placing one more queen never removes a conflict. */
  lemma ConflictsGrow(b: seq<int>, k: nat)
    requires k < |b|
    ensures Conflicts(b, k) <= Conflicts(b, k + 1)
  {
    PairCountGrows(b, k, k);
  }

  /** The reward after `placed` queens of a board of size `n`: minus the number of
      conflicting pairs, and `n * n` when the board is full and free of conflicts. */
  function Reward(b: seq<int>, placed: nat, n: nat): (r: int)
    requires placed <= |b|
    ensures placed == n && NoAttack(b, placed) ==> r == n * n
    ensures placed < n && NoAttack(b, placed) ==> r == 0
    ensures !NoAttack(b, placed) ==> r < 0
    ensures !(placed == n && NoAttack(b, placed)) ==> r == -(Conflicts(b, placed) as int)
  {
    ConflictsZeroIff(b, placed);
    var penalty := -(Conflicts(b, placed) as int);
    if penalty == 0 && placed == n then penalty + n * n else penalty
  }

  /** `p` is a permutation of `0 .. n-1`. */
  predicate IsPermutation(p: seq<int>, n: nat)
  {
    && |p| == n
    && (forall k :: 0 <= k < n ==> 0 <= p[k] < n)
    && (forall i, j :: 0 <= i < j < n ==> p[i] != p[j])
  }

  /** No board appears twice in `sols`: each one differs from every board before it. */
  predicate NoDuplicates(sols: seq<seq<int>>)
    decreases |sols|
  {
    sols == [] || (sols[|sols| - 1] !in sols[..|sols| - 1] && NoDuplicates(sols[..|sols| - 1]))
  }

  /** `NoDuplicates` holds exactly when any two positions hold different boards. */
  lemma {:induction false} NoDuplicatesIff(sols: seq<seq<int>>)
    ensures NoDuplicates(sols) <==> forall i, j :: 0 <= i < j < |sols| ==> sols[i] != sols[j]
    decreases |sols|
  {
    if sols != [] {
      var m := |sols| - 1;
      var prev := sols[..m];
      NoDuplicatesIff(prev);
      if NoDuplicates(sols) {
        forall i, j | 0 <= i < j < |sols| ensures sols[i] != sols[j] {
          if j == m {
            assert sols[i] == prev[i];
          } else {
            assert sols[i] == prev[i] && sols[j] == prev[j];
          }
        }
      }
      if forall i, j :: 0 <= i < j < |sols| ==> sols[i] != sols[j] {
        forall i, j | 0 <= i < j < |prev| ensures prev[i] != prev[j] {
          assert prev[i] == sols[i] && prev[j] == sols[j];
        }
        forall i | 0 <= i < m ensures prev[i] != sols[m] {
          assert prev[i] == sols[i];
        }
      }
    }
  }

  /** A list of recorded solutions: full boards of size `n` without conflicts,
      no two of them equal. */
  predicate IsSolutionList(sols: seq<seq<int>>, n: nat)
  {
    && (forall k :: 0 <= k < |sols| ==> |sols[k]| == n && NoAttack(sols[k], n))
    && NoDuplicates(sols)
  }

  /** The solution list after a full board `b` is scored: `b` is appended when no two of
      its queens attack and no equal board is recorded yet. */
  function AddSolution(sols: seq<seq<int>>, b: seq<int>, n: nat): seq<seq<int>>
    requires |b| == n
  {
    if NoAttack(b, n) && b !in sols then sols + [b] else sols
  }
}
