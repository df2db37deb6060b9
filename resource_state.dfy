/** The resource state of the Banker's algorithm: a vector of available units
    (one entry per resource type), and allocation and need matrices (one row per
    process, one column per resource type), together with the vocabulary used to
    say what a safe completion order is. */
module ResourceState {

  type Vector = seq<int>
  type Matrix = seq<seq<int>>

  datatype Option<T> = None | Some(value: T)

  /** `m` has P rows of R entries each. */
  predicate IsMatrix(m: Matrix, P: nat, R: nat) {
    |m| == P && forall i :: 0 <= i < P ==> |m[i]| == R
  }

  predicate NonNegative(v: Vector) {
    forall j :: 0 <= j < |v| ==> 0 <= v[j]
  }

  predicate NonNegativeMatrix(m: Matrix) {
    forall i :: 0 <= i < |m| ==> NonNegative(m[i])
  }

  /** The dimensions the algorithms index with: P processes, R resource types. */
  predicate WellFormed(available: Vector, allocation: Matrix, need: Matrix, P: nat, R: nat) {
    |available| == R && IsMatrix(allocation, P, R) && IsMatrix(need, P, R)
  }

  function Plus(u: Vector, v: Vector): (r: Vector)
    requires |u| == |v|
    ensures |r| == |u| && forall j :: 0 <= j < |u| ==> r[j] == u[j] + v[j]
  {
    seq(|u|, j requires 0 <= j < |u| => u[j] + v[j])
  }

  function Minus(u: Vector, v: Vector): (r: Vector)
    requires |u| == |v|
    ensures |r| == |u| && forall j :: 0 <= j < |u| ==> r[j] == u[j] - v[j]
  {
    seq(|u|, j requires 0 <= j < |u| => u[j] - v[j])
  }

  // ---------------------------------------------------------------------------
  // Orders of processes

  predicate IndicesBelow(order: seq<nat>, P: nat) {
    forall k :: 0 <= k < |order| ==> order[k] < P
  }

  predicate Distinct(order: seq<nat>) {
    forall p, q :: 0 <= p < q < |order| ==> order[p] != order[q]
  }

  /** `order` lists every process 0..P-1 exactly once. */
  predicate IsPermutationOf(order: seq<nat>, P: nat) {
    |order| == P && IndicesBelow(order, P) && Distinct(order) &&
    forall i :: 0 <= i < P ==> i in order
  }

  /** Units of resource type j held, in total, by the processes listed in `order`. */
  function ColSum(allocation: Matrix, order: seq<nat>, j: nat): (total: int)
    requires forall k :: 0 <= k < |order| ==> order[k] < |allocation| && j < |allocation[order[k]]|
  {
    if order == [] then 0
    else ColSum(allocation, order[..|order| - 1], j) + allocation[order[|order| - 1]][j]
  }

  /** Units of resource type j held by all processes together. */
  function ColumnTotal(m: Matrix, j: nat): (total: int)
    requires forall i :: 0 <= i < |m| ==> j < |m[i]|
  {
    if m == [] then 0 else ColumnTotal(m[..|m| - 1], j) + m[|m| - 1][j]
  }

  /** Process x can obtain its whole remaining need once every process in
      `prefix` has finished and released what it holds. */
  predicate CanFinish(available: Vector, allocation: Matrix, need: Matrix, P: nat, R: nat,
                      prefix: seq<nat>, x: nat)
    requires WellFormed(available, allocation, need, P, R)
    requires IndicesBelow(prefix, P) && x < P
  {
    forall j :: 0 <= j < R ==> need[x][j] <= available[j] + ColSum(allocation, prefix, j)
  }

  /** `order` is a safe sequence: a permutation of the processes in which each
      one can finish with what is available plus what its predecessors release. */
  predicate IsSafeSequence(available: Vector, allocation: Matrix, need: Matrix, P: nat, R: nat,
                           order: seq<nat>)
    requires WellFormed(available, allocation, need, P, R)
  {
    IsPermutationOf(order, P) &&
    forall k :: 0 <= k < P ==> CanFinish(available, allocation, need, P, R, order[..k], order[k])
  }

  /** A safe state: some safe sequence exists. */
  ghost predicate IsSafeState(available: Vector, allocation: Matrix, need: Matrix, P: nat, R: nat)
    requires WellFormed(available, allocation, need, P, R)
  {
    exists order :: IsSafeSequence(available, allocation, need, P, R, order)
  }

  // ---------------------------------------------------------------------------
  // Sums over sets of processes

  /** The sum of column j over the rows i < n that are listed in `a`. */
  function MaskSum(allocation: Matrix, R: nat, a: seq<nat>, j: nat, n: nat): (total: int)
    requires n <= |allocation| && j < R
    requires forall i :: 0 <= i < |allocation| ==> |allocation[i]| == R
  {
    if n == 0 then 0
    else MaskSum(allocation, R, a, j, n - 1) + (if n - 1 in a then allocation[n - 1][j] else 0)
  }

  lemma {:induction false} MaskSumEmpty(allocation: Matrix, R: nat, j: nat, n: nat)
    requires n <= |allocation| && j < R
    requires forall i :: 0 <= i < |allocation| ==> |allocation[i]| == R
    ensures MaskSum(allocation, R, [], j, n) == 0
  {
    if n > 0 {
      MaskSumEmpty(allocation, R, j, n - 1);
    }
  }

  lemma {:induction false} MaskSumExtend(allocation: Matrix, R: nat, a: seq<nat>, x: nat, j: nat, n: nat)
    requires n <= |allocation| && j < R
    requires forall i :: 0 <= i < |allocation| ==> |allocation[i]| == R
    requires x !in a
    ensures MaskSum(allocation, R, a + [x], j, n)
         == MaskSum(allocation, R, a, j, n) + (if x < n then allocation[x][j] else 0)
  {
    if n > 0 {
      MaskSumExtend(allocation, R, a, x, j, n - 1);
      assert (n - 1 in a + [x]) <==> (n - 1 in a || n - 1 == x);
    }
  }

  lemma {:induction false} MaskSumMonotone(allocation: Matrix, R: nat, a: seq<nat>, b: seq<nat>, j: nat, n: nat)
    requires n <= |allocation| && j < R
    requires forall i :: 0 <= i < |allocation| ==> |allocation[i]| == R
    requires NonNegativeMatrix(allocation)
    requires forall k :: 0 <= k < |a| ==> a[k] in b
    ensures MaskSum(allocation, R, a, j, n) <= MaskSum(allocation, R, b, j, n)
  {
    if n > 0 {
      MaskSumMonotone(allocation, R, a, b, j, n - 1);
      assert NonNegative(allocation[n - 1]);
    }
  }

  /** For an order without repetitions, its column sum is the sum over the set it lists. */
  lemma {:induction false} ColSumIsMaskSum(allocation: Matrix, P: nat, R: nat, a: seq<nat>, j: nat)
    requires IsMatrix(allocation, P, R) && j < R
    requires IndicesBelow(a, P) && Distinct(a)
    ensures ColSum(allocation, a, j) == MaskSum(allocation, R, a, j, P)
  {
    if a == [] {
      MaskSumEmpty(allocation, R, j, P);
    } else {
      var a', x := a[..|a| - 1], a[|a| - 1];
      assert a == a' + [x];
      assert x !in a' by {
        forall k | 0 <= k < |a'| ensures a'[k] != x { assert a[k] != a[|a| - 1]; }
      }
      ColSumIsMaskSum(allocation, P, R, a', j);
      MaskSumExtend(allocation, R, a', x, j, P);
    }
  }

  /** Releasing a subset of what a set of processes holds never yields more:
      for non-negative allocations, the column sum over a repetition-free order
      is at most the column sum over any repetition-free order containing it. */
  lemma ColSumSubset(allocation: Matrix, P: nat, R: nat, a: seq<nat>, b: seq<nat>, j: nat)
    requires IsMatrix(allocation, P, R) && j < R && NonNegativeMatrix(allocation)
    requires IndicesBelow(a, P) && Distinct(a) && IndicesBelow(b, P) && Distinct(b)
    requires forall k :: 0 <= k < |a| ==> a[k] in b
    ensures ColSum(allocation, a, j) <= ColSum(allocation, b, j)
  {
    ColSumIsMaskSum(allocation, P, R, a, j);
    ColSumIsMaskSum(allocation, P, R, b, j);
    MaskSumMonotone(allocation, R, a, b, j, P);
  }

  /** The processes 0, 1, ..., n-1 in index order. */
  function Upto(n: nat): (order: seq<nat>)
    ensures |order| == n && forall k :: 0 <= k < n ==> order[k] == k
  {
    if n == 0 then [] else Upto(n - 1) + [n - 1]
  }

  /** A column total is the column sum over all processes in index order. */
  lemma {:induction false} ColumnTotalIsColSum(m: Matrix, j: nat, n: nat)
    requires forall i :: 0 <= i < |m| ==> j < |m[i]|
    requires n <= |m|
    ensures ColumnTotal(m[..n], j) == ColSum(m, Upto(n), j)
  {
    if n > 0 {
      assert m[..n][..n - 1] == m[..n - 1];
      assert Upto(n)[..n - 1] == Upto(n - 1);
      ColumnTotalIsColSum(m, j, n - 1);
    }
  }

  /** Replacing one row changes a column total by exactly the difference in that row. */
  lemma {:induction false} ColumnTotalUpdate(m: Matrix, p: nat, row: seq<int>, j: nat)
    requires forall i :: 0 <= i < |m| ==> j < |m[i]|
    requires p < |m| && j < |row|
    ensures ColumnTotal(m[p := row], j) == ColumnTotal(m, j) - m[p][j] + row[j]
  {
    var n := |m| - 1;
    if p == n {
      assert m[p := row][..n] == m[..n];
    } else {
      assert m[p := row][..n] == m[..n][p := row];
      ColumnTotalUpdate(m[..n], p, row, j);
    }
  }
}
