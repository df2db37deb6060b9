/** The safety algorithm of `checkSafety`: starting from `work = available`,
    repeatedly scan the processes in index order, letting every unfinished
    process whose need fits in `work` finish and release its allocation, until
    all have finished (safe) or a whole pass finishes nobody (unsafe).

    `Step`, `PassFrom` and `Run` describe the algorithm as functions of its
    state; `CheckSafety` is the loop program, proved equal to them; the
    lemmas relate the result to safe sequences. */
module SafetyCheck {
  import opened ResourceState

  datatype SafetyResult = SafetyResult(isSafe: bool, sequence: seq<nat>)

  /** The answer for an unsafe state, also the fixed payload of every rejected request. */
  const Unsafe: SafetyResult := SafetyResult(false, [])

  /** The algorithm's state between two steps: the work vector, the finish
      flags, and the order in which processes finished so far. */
  datatype Scan = Scan(work: Vector, finish: seq<bool>, sequence: seq<nat>)

  /** The result together with the number of outer passes that produced it. */
  datatype Outcome = Outcome(result: SafetyResult, passes: nat)

  predicate Shaped(s: Scan, P: nat, R: nat) {
    |s.work| == R && |s.finish| == P
  }

  /** The need row fits in the work vector, entry by entry. */
  predicate Fits(row: Vector, work: Vector)
    requires |row| == |work|
  {
    forall j :: 0 <= j < |work| ==> row[j] <= work[j]
  }

  function CountFalse(f: seq<bool>): (n: nat) {
    if f == [] then 0 else CountFalse(f[..|f| - 1]) + (if f[|f| - 1] then 0 else 1)
  }

  function Initial(available: Vector, P: nat): (s: Scan) {
    Scan(available, seq(P, _ => false), [])
  }

  /** One visit of process i in a pass. */
  function Step(allocation: Matrix, need: Matrix, P: nat, R: nat, i: nat, s: Scan): (t: Scan)
    requires IsMatrix(allocation, P, R) && IsMatrix(need, P, R) && Shaped(s, P, R) && i < P
    ensures Shaped(t, P, R)
  {
    if !s.finish[i] && Fits(need[i], s.work) then
      Scan(Plus(s.work, allocation[i]), s.finish[i := true], s.sequence + [i])
    else
      s
  }

  /** The rest of a pass, from process i to the last one. */
  function PassFrom(allocation: Matrix, need: Matrix, P: nat, R: nat, i: nat, s: Scan): (t: Scan)
    requires IsMatrix(allocation, P, R) && IsMatrix(need, P, R) && Shaped(s, P, R) && i <= P
    ensures Shaped(t, P, R)
    decreases P - i
  {
    if i == P then s else PassFrom(allocation, need, P, R, i + 1, Step(allocation, need, P, R, i, s))
  }

  /** The outer loop: passes until all P processes have finished or a pass finishes nobody. */
  function Run(allocation: Matrix, need: Matrix, P: nat, R: nat, s: Scan): (o: Outcome)
    requires IsMatrix(allocation, P, R) && IsMatrix(need, P, R) && Shaped(s, P, R)
    decreases CountFalse(s.finish)
  {
    if |s.sequence| >= P then Outcome(SafetyResult(true, s.sequence), 0)
    else
      var t := PassFrom(allocation, need, P, R, 0, s);
      if |t.sequence| == |s.sequence| then Outcome(Unsafe, 1)
      else
        PassFromConserves(allocation, need, P, R, 0, s);
        var o := Run(allocation, need, P, R, t);
        Outcome(o.result, o.passes + 1)
  }

  /** What `checkSafety` returns. */
  function Safety(available: Vector, allocation: Matrix, need: Matrix, P: nat, R: nat): (r: SafetyResult)
    requires WellFormed(available, allocation, need, P, R)
  {
    Run(allocation, need, P, R, Initial(available, P)).result
  }

  /** How many outer passes `checkSafety` makes. */
  function SafetyPasses(available: Vector, allocation: Matrix, need: Matrix, P: nat, R: nat): (n: nat)
    requires WellFormed(available, allocation, need, P, R)
  {
    Run(allocation, need, P, R, Initial(available, P)).passes
  }

  // ---------------------------------------------------------------------------
  // Counting unfinished processes

  lemma {:induction false} CountFalseUpdate(f: seq<bool>, i: nat)
    requires i < |f| && !f[i]
    ensures CountFalse(f[i := true]) == CountFalse(f) - 1
  {
    var n := |f| - 1;
    if i == n {
      assert f[i := true][..n] == f[..n];
    } else {
      assert f[i := true][..n] == f[..n][i := true];
      CountFalseUpdate(f[..n], i);
    }
  }

  lemma {:induction false} CountFalseAllFalse(P: nat)
    ensures CountFalse(seq(P, _ => false)) == P
  {
    if P > 0 {
      assert seq(P, _ => false)[..P - 1] == seq(P - 1, _ => false);
      CountFalseAllFalse(P - 1);
    }
  }

  lemma {:induction false} CountFalseZero(f: seq<bool>)
    ensures CountFalse(f) == 0 <==> forall i :: 0 <= i < |f| ==> f[i]
  {
    if f != [] {
      var n := |f| - 1;
      CountFalseZero(f[..n]);
      assert forall i :: 0 <= i < n ==> f[..n][i] == f[i];
    }
  }

  // ---------------------------------------------------------------------------
  // A pass only adds to the sequence, and trades unfinished processes for entries

  lemma StepConserves(allocation: Matrix, need: Matrix, P: nat, R: nat, i: nat, s: Scan)
    requires IsMatrix(allocation, P, R) && IsMatrix(need, P, R) && Shaped(s, P, R) && i < P
    ensures var t := Step(allocation, need, P, R, i, s);
      |t.sequence| >= |s.sequence| &&
      CountFalse(t.finish) + |t.sequence| == CountFalse(s.finish) + |s.sequence|
  {
    if !s.finish[i] && Fits(need[i], s.work) {
      CountFalseUpdate(s.finish, i);
    }
  }

  lemma {:induction false} PassFromConserves(allocation: Matrix, need: Matrix, P: nat, R: nat, i: nat, s: Scan)
    requires IsMatrix(allocation, P, R) && IsMatrix(need, P, R) && Shaped(s, P, R) && i <= P
    ensures var t := PassFrom(allocation, need, P, R, i, s);
      |t.sequence| >= |s.sequence| &&
      CountFalse(t.finish) + |t.sequence| == CountFalse(s.finish) + |s.sequence|
    decreases P - i
  {
    if i < P {
      StepConserves(allocation, need, P, R, i, s);
      PassFromConserves(allocation, need, P, R, i + 1, Step(allocation, need, P, R, i, s));
    }
  }

  /** A pass that finishes nobody leaves the state as it was, and then no
      unfinished process from i on fits in the work vector. */
  lemma {:induction false} PassFromStuck(allocation: Matrix, need: Matrix, P: nat, R: nat, i: nat, s: Scan)
    requires IsMatrix(allocation, P, R) && IsMatrix(need, P, R) && Shaped(s, P, R) && i <= P
    requires |PassFrom(allocation, need, P, R, i, s).sequence| == |s.sequence|
    ensures PassFrom(allocation, need, P, R, i, s) == s
    ensures forall k :: i <= k < P ==> s.finish[k] || !Fits(need[k], s.work)
    decreases P - i
  {
    if i < P {
      var t := Step(allocation, need, P, R, i, s);
      PassFromConserves(allocation, need, P, R, i + 1, t);
      if !s.finish[i] && Fits(need[i], s.work) {
        assert false;
      }
      PassFromStuck(allocation, need, P, R, i + 1, s);
    }
  }

  // ---------------------------------------------------------------------------
  // The invariant of the algorithm

  /** What holds of every state the algorithm reaches: the sequence lists the
      finished processes, once each, each of which could finish when it was
      appended, and the work vector is what is available plus what they hold. */
  ghost predicate Reached(available: Vector, allocation: Matrix, need: Matrix, P: nat, R: nat, s: Scan)
    requires WellFormed(available, allocation, need, P, R)
  {
    Shaped(s, P, R) &&
    IndicesBelow(s.sequence, P) && Distinct(s.sequence) &&
    (forall i :: 0 <= i < P ==> (s.finish[i] <==> i in s.sequence)) &&
    (forall j :: 0 <= j < R ==> s.work[j] == available[j] + ColSum(allocation, s.sequence, j)) &&
    (forall k :: 0 <= k < |s.sequence| ==>
       CanFinish(available, allocation, need, P, R, s.sequence[..k], s.sequence[k])) &&
    |s.sequence| + CountFalse(s.finish) == P
  }

  lemma InitialReached(available: Vector, allocation: Matrix, need: Matrix, P: nat, R: nat)
    requires WellFormed(available, allocation, need, P, R)
    ensures Reached(available, allocation, need, P, R, Initial(available, P))
  {
    CountFalseAllFalse(P);
  }

  lemma ColSumAppend(allocation: Matrix, order: seq<nat>, x: nat, j: nat)
    requires forall k :: 0 <= k < |order| ==> order[k] < |allocation| && j < |allocation[order[k]]|
    requires x < |allocation| && j < |allocation[x]|
    ensures ColSum(allocation, order + [x], j) == ColSum(allocation, order, j) + allocation[x][j]
  {
    assert (order + [x])[..|order|] == order;
  }

  /** Appending an unfinished process that fits keeps the invariant. */
  lemma StepReached(available: Vector, allocation: Matrix, need: Matrix, P: nat, R: nat, i: nat, s: Scan)
    requires WellFormed(available, allocation, need, P, R) && i < P
    requires Reached(available, allocation, need, P, R, s)
    ensures Reached(available, allocation, need, P, R, Step(allocation, need, P, R, i, s))
  {
    if !s.finish[i] && Fits(need[i], s.work) {
      var n := |s.sequence|;
      var sq := s.sequence + [i];
      var t := Scan(Plus(s.work, allocation[i]), s.finish[i := true], sq);
      assert t == Step(allocation, need, P, R, i, s);
      assert i !in s.sequence;
      assert IndicesBelow(sq, P) && Distinct(sq) by {
        forall p, q | 0 <= p < q < |sq| ensures sq[p] != sq[q] {
          if q == n { assert sq[p] in s.sequence; }
        }
      }
      forall k | 0 <= k < |sq|
        ensures CanFinish(available, allocation, need, P, R, sq[..k], sq[k])
      {
        if k < n {
          assert sq[..k] == s.sequence[..k];
        } else {
          assert sq[..k] == s.sequence;
        }
      }
      forall j | 0 <= j < R
        ensures t.work[j] == available[j] + ColSum(allocation, sq, j)
      {
        ColSumAppend(allocation, s.sequence, i, j);
      }
      forall i' | 0 <= i' < P ensures t.finish[i'] <==> i' in sq {
        assert i' in sq <==> i' in s.sequence || i' == i;
      }
      CountFalseUpdate(s.finish, i);
    }
  }

  lemma {:induction false} PassFromReached(available: Vector, allocation: Matrix, need: Matrix, P: nat, R: nat,
                                           i: nat, s: Scan)
    requires WellFormed(available, allocation, need, P, R) && i <= P
    requires Reached(available, allocation, need, P, R, s)
    ensures Reached(available, allocation, need, P, R, PassFrom(allocation, need, P, R, i, s))
    decreases P - i
  {
    if i < P {
      StepReached(available, allocation, need, P, R, i, s);
      PassFromReached(available, allocation, need, P, R, i + 1, Step(allocation, need, P, R, i, s));
    }
  }

  /** The position, in a permutation, of the first process not yet finished. */
  lemma FirstUnfinished(finish: seq<bool>, order: seq<nat>, P: nat) returns (k: nat)
    requires |finish| == P && IsPermutationOf(order, P)
    requires exists x :: 0 <= x < P && !finish[x]
    ensures k < P && !finish[order[k]]
    ensures forall m :: 0 <= m < k ==> finish[order[m]]
  {
    var x :| 0 <= x < P && !finish[x];
    assert x in order;
    var pos :| 0 <= pos < P && order[pos] == x;
    k := 0;
    while finish[order[k]]
      invariant 0 <= k <= pos
      invariant forall m :: 0 <= m < k ==> finish[order[m]]
      decreases pos - k
    {
      k := k + 1;
    }
  }

  /** If the algorithm is stuck with some process unfinished, there is no safe
      sequence at all: the first unfinished process of any candidate order
      would have to fit in what its predecessors release, which is no more than
      the work vector, since releases only add (allocations are non-negative). */
  lemma StuckHasNoSafeSequence(available: Vector, allocation: Matrix, need: Matrix, P: nat, R: nat,
                               s: Scan, order: seq<nat>)
    requires WellFormed(available, allocation, need, P, R) && NonNegativeMatrix(allocation)
    requires Reached(available, allocation, need, P, R, s) && |s.sequence| < P
    requires forall i :: 0 <= i < P ==> s.finish[i] || !Fits(need[i], s.work)
    ensures !IsSafeSequence(available, allocation, need, P, R, order)
  {
    if IsSafeSequence(available, allocation, need, P, R, order) {
      CountFalseZero(s.finish);
      var k := FirstUnfinished(s.finish, order, P);
      var prefix := order[..k];
      assert forall m :: 0 <= m < |prefix| ==> prefix[m] in s.sequence by {
        forall m | 0 <= m < |prefix| ensures prefix[m] in s.sequence {
          assert s.finish[order[m]];
        }
      }
      assert CanFinish(available, allocation, need, P, R, prefix, order[k]);
      forall j | 0 <= j < R ensures need[order[k]][j] <= s.work[j] {
        ColSumSubset(allocation, P, R, prefix, s.sequence, j);
      }
    }
  }

  // ---------------------------------------------------------------------------
  // Properties of the outer loop

  lemma {:induction false} RunSound(available: Vector, allocation: Matrix, need: Matrix, P: nat, R: nat, s: Scan)
    requires WellFormed(available, allocation, need, P, R)
    requires Reached(available, allocation, need, P, R, s)
    ensures var r := Run(allocation, need, P, R, s).result;
      (r.isSafe ==> IsSafeSequence(available, allocation, need, P, R, r.sequence)) &&
      (!r.isSafe ==> r.sequence == [])
    decreases CountFalse(s.finish)
  {
    if |s.sequence| >= P {
      CountFalseZero(s.finish);
      assert forall i :: 0 <= i < P ==> s.finish[i];
    } else {
      var t := PassFrom(allocation, need, P, R, 0, s);
      if |t.sequence| != |s.sequence| {
        PassFromConserves(allocation, need, P, R, 0, s);
        PassFromReached(available, allocation, need, P, R, 0, s);
        RunSound(available, allocation, need, P, R, t);
      }
    }
  }

  lemma {:induction false} RunComplete(available: Vector, allocation: Matrix, need: Matrix, P: nat, R: nat,
                                       s: Scan, order: seq<nat>)
    requires WellFormed(available, allocation, need, P, R) && NonNegativeMatrix(allocation)
    requires Reached(available, allocation, need, P, R, s)
    requires IsSafeSequence(available, allocation, need, P, R, order)
    ensures Run(allocation, need, P, R, s).result.isSafe
    decreases CountFalse(s.finish)
  {
    if |s.sequence| < P {
      var t := PassFrom(allocation, need, P, R, 0, s);
      if |t.sequence| == |s.sequence| {
        PassFromStuck(allocation, need, P, R, 0, s);
        StuckHasNoSafeSequence(available, allocation, need, P, R, s, order);
        assert false;
      } else {
        PassFromConserves(allocation, need, P, R, 0, s);
        PassFromReached(available, allocation, need, P, R, 0, s);
        RunComplete(available, allocation, need, P, R, t, order);
      }
    }
  }

  lemma {:induction false} RunPassBound(allocation: Matrix, need: Matrix, P: nat, R: nat, s: Scan)
    requires IsMatrix(allocation, P, R) && IsMatrix(need, P, R) && Shaped(s, P, R)
    requires |s.sequence| + CountFalse(s.finish) == P
    ensures Run(allocation, need, P, R, s).passes <= CountFalse(s.finish)
    decreases CountFalse(s.finish)
  {
    if |s.sequence| < P {
      var t := PassFrom(allocation, need, P, R, 0, s);
      if |t.sequence| != |s.sequence| {
        PassFromConserves(allocation, need, P, R, 0, s);
        RunPassBound(allocation, need, P, R, t);
      }
    }
  }

  // ---------------------------------------------------------------------------
  // What `checkSafety` promises

  /** A safe answer carries a safe sequence (a permutation of the processes);
      an unsafe answer carries the empty sequence. */
  lemma SafetySound(available: Vector, allocation: Matrix, need: Matrix, P: nat, R: nat)
    requires WellFormed(available, allocation, need, P, R)
    ensures var r := Safety(available, allocation, need, P, R);
      (r.isSafe ==> IsSafeSequence(available, allocation, need, P, R, r.sequence)) &&
      (!r.isSafe ==> r.sequence == [])
  {
    InitialReached(available, allocation, need, P, R);
    RunSound(available, allocation, need, P, R, Initial(available, P));
  }

  /** The answer is "safe" exactly when some safe sequence exists. */
  lemma SafetyComplete(available: Vector, allocation: Matrix, need: Matrix, P: nat, R: nat)
    requires WellFormed(available, allocation, need, P, R) && NonNegativeMatrix(allocation)
    ensures Safety(available, allocation, need, P, R).isSafe <==> IsSafeState(available, allocation, need, P, R)
  {
    SafetySound(available, allocation, need, P, R);
    if IsSafeState(available, allocation, need, P, R) {
      var order :| IsSafeSequence(available, allocation, need, P, R, order);
      InitialReached(available, allocation, need, P, R);
      RunComplete(available, allocation, need, P, R, Initial(available, P), order);
    }
  }

  /** The outer loop makes at most P passes. */
  lemma SafetyPassBound(available: Vector, allocation: Matrix, need: Matrix, P: nat, R: nat)
    requires WellFormed(available, allocation, need, P, R)
    ensures SafetyPasses(available, allocation, need, P, R) <= P
  {
    CountFalseAllFalse(P);
    RunPassBound(allocation, need, P, R, Initial(available, P));
  }

  // ---------------------------------------------------------------------------
  // The program

  /** The `canAllocate` loop of `checkSafety`: stops at the first resource
      type whose need exceeds the work vector. */
  method NeedFits(row: Vector, work: array<int>) returns (canAllocate: bool)
    requires |row| == work.Length
    ensures canAllocate == Fits(row, work[..])
  {
    canAllocate := true;
    for j := 0 to work.Length
      invariant forall l :: 0 <= l < j ==> row[l] <= work[l]
    {
      if row[j] > work[j] {
        canAllocate := false;
        break;
      }
    }
  }

  /** The release loop of `checkSafety`: `work[j] += allocation[i][j]` for every j. */
  method Release(work: array<int>, row: Vector)
    requires |row| == work.Length
    modifies work
    ensures work[..] == Plus(old(work[..]), row)
  {
    for j := 0 to work.Length
      invariant forall l :: 0 <= l < j ==> work[l] == old(work[l]) + row[l]
      invariant forall l :: j <= l < work.Length ==> work[l] == old(work[l])
    {
      work[j] := work[j] + row[j];
    }
  }

  /** One iteration of the scan in `checkSafety`: an unfinished process whose
      need fits releases its allocation into `work`, is marked finished and is
      appended to the sequence; `fired` tells whether that happened. */
  method Visit(allocation: Matrix, need: Matrix, P: nat, R: nat, i: nat,
               work: array<int>, finish: array<bool>, safeSequence: seq<nat>)
    returns (newSequence: seq<nat>, fired: bool)
    requires IsMatrix(allocation, P, R) && IsMatrix(need, P, R) && i < P
    requires work.Length == R && finish.Length == P
    modifies work, finish
    ensures Scan(work[..], finish[..], newSequence)
         == Step(allocation, need, P, R, i, Scan(old(work[..]), old(finish[..]), safeSequence))
    ensures fired <==> |newSequence| > |safeSequence|
    ensures |newSequence| <= |safeSequence| + 1
  {
    ghost var before := Scan(work[..], finish[..], safeSequence);
    newSequence, fired := safeSequence, false;
    if !finish[i] {
      var canAllocate := NeedFits(need[i], work);
      if canAllocate {
        Release(work, allocation[i]);
        newSequence := safeSequence + [i];
        finish[i] := true;
        assert finish[..] == before.finish[i := true];
        fired := true;
      }
    }
  }

  /** `checkSafety`: works on a copy of `available`; the inputs are values and stay as they were. */
  method CheckSafety(available: Vector, allocation: Matrix, need: Matrix, P: nat, R: nat)
    returns (r: SafetyResult)
    requires WellFormed(available, allocation, need, P, R)
    ensures r == Safety(available, allocation, need, P, R)
    ensures r.isSafe ==> IsSafeSequence(available, allocation, need, P, R, r.sequence)
    ensures !r.isSafe ==> r.sequence == []
  {
    var work := new int[R](j requires 0 <= j < R => available[j]);
    var finish := new bool[P](_ => false);
    var safeSequence: seq<nat> := [];
    var count := 0;
    assert work[..] == available && finish[..] == seq(P, _ => false);

    while count < P
      invariant count == |safeSequence|
      invariant Run(allocation, need, P, R, Scan(work[..], finish[..], safeSequence)).result
             == Safety(available, allocation, need, P, R)
      decreases P - count
    {
      var found := false;
      ghost var start := Scan(work[..], finish[..], safeSequence);

      for i := 0 to P
        invariant count == |safeSequence| && count >= |start.sequence|
        invariant found <==> count > |start.sequence|
        invariant PassFrom(allocation, need, P, R, i, Scan(work[..], finish[..], safeSequence))
               == PassFrom(allocation, need, P, R, 0, start)
      {
        var fired;
        safeSequence, fired := Visit(allocation, need, P, R, i, work, finish, safeSequence);
        if fired {
          found := true;
          count := count + 1;
        }
      }

      if !found {
        SafetySound(available, allocation, need, P, R);
        return SafetyResult(false, []);
      }
    }

    SafetySound(available, allocation, need, P, R);
    return SafetyResult(true, safeSequence);
  }
}
