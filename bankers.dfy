/** `calculateNeed` and the grant protocol `requestResources`: screen the
    request resource type by resource type, apply it tentatively, re-run the
    safety algorithm on the candidate state, and return either the candidate
    or the untouched original state. */
module Bankers {
  import opened ResourceState
  import opened SafetyCheck

  // ---------------------------------------------------------------------------
  // calculateNeed

  /** `need` has the shape of `maximum` and holds `maximum - allocation` entry by entry. */
  predicate IsNeedOf(maximum: Matrix, allocation: Matrix, need: Matrix) {
    |allocation| >= |maximum| &&
    (forall i :: 0 <= i < |maximum| ==> |allocation[i]| >= |maximum[i]|) &&
    |need| == |maximum| &&
    (forall i :: 0 <= i < |maximum| ==> |need[i]| == |maximum[i]|) &&
    forall i, j :: 0 <= i < |maximum| && 0 <= j < |maximum[i]| ==>
      need[i][j] == maximum[i][j] - allocation[i][j]
  }

  /** No process holds more of a resource type than its declared maximum. */
  predicate WithinMaximum(maximum: Matrix, allocation: Matrix)
    requires |allocation| >= |maximum|
    requires forall i :: 0 <= i < |maximum| ==> |allocation[i]| >= |maximum[i]|
  {
    forall i, j :: 0 <= i < |maximum| && 0 <= j < |maximum[i]| ==> allocation[i][j] <= maximum[i][j]
  }

  /** `calculateNeed`: rows and row lengths are taken from `maximum`; nothing
      checks the sign, so the need is non-negative exactly when no allocation
      exceeds its maximum. */
  method CalculateNeed(maximum: Matrix, allocation: Matrix) returns (need: Matrix)
    requires |allocation| >= |maximum|
    requires forall i :: 0 <= i < |maximum| ==> |allocation[i]| >= |maximum[i]|
    ensures IsNeedOf(maximum, allocation, need)
    ensures NonNegativeMatrix(need) <==> WithinMaximum(maximum, allocation)
  {
    need := [];
    for i := 0 to |maximum|
      invariant |need| == i
      invariant forall k :: 0 <= k < i ==> |need[k]| == |maximum[k]|
      invariant forall k, j :: 0 <= k < i && 0 <= j < |maximum[k]| ==>
                  need[k][j] == maximum[k][j] - allocation[k][j]
    {
      var row: seq<int> := [];
      for j := 0 to |maximum[i]|
        invariant |row| == j
        invariant forall l :: 0 <= l < j ==> row[l] == maximum[i][l] - allocation[i][l]
      {
        row := row + [maximum[i][j] - allocation[i][j]];
      }
      need := need + [row];
    }
    assert NonNegativeMatrix(need) ==> WithinMaximum(maximum, allocation) by {
      if NonNegativeMatrix(need) {
        forall i, j | 0 <= i < |maximum| && 0 <= j < |maximum[i]|
          ensures allocation[i][j] <= maximum[i][j]
        {
          assert NonNegative(need[i]);
        }
      }
    }
  }

  /** The need matrix is determined by maximum and allocation. */
  lemma NeedUnique(maximum: Matrix, allocation: Matrix, need1: Matrix, need2: Matrix)
    requires IsNeedOf(maximum, allocation, need1) && IsNeedOf(maximum, allocation, need2)
    ensures need1 == need2
  {
    forall i | 0 <= i < |maximum| ensures need1[i] == need2[i] {
      assert forall j :: 0 <= j < |maximum[i]| ==> need1[i][j] == need2[i][j];
    }
  }

  // ---------------------------------------------------------------------------
  // requestResources

  /** Why a request is not granted (the source reports these as messages). */
  datatype Reason =
    | ExceedsMaximumNeed  // "Request exceeds maximum need"
    | NotAvailable        // "Resources not available - must wait"
    | UnsafeState         // "Request would lead to unsafe state - denied"

  datatype RequestResult = RequestResult(
    granted: bool,
    message: Option<Reason>,
    newAvailable: Vector,
    newAllocation: Matrix,
    newNeed: Matrix,
    safetyCheck: SafetyResult)

  /** The three parts of a resource state that a grant changes. */
  datatype Snapshot = Snapshot(available: Vector, allocation: Matrix, need: Matrix)

  /** Resource type k passes both screening checks. */
  predicate Within(request: Vector, needRow: Vector, available: Vector, k: nat)
    requires k < |request| == |needRow| == |available|
  {
    request[k] <= needRow[k] && request[k] <= available[k]
  }

  /** The screening loop, from resource type i on: at each type the need check
      comes first, then the availability check. */
  function FirstRejection(request: Vector, needRow: Vector, available: Vector, i: nat): (reason: Option<Reason>)
    requires |request| == |needRow| == |available| && i <= |available|
    decreases |available| - i
  {
    if i == |available| then None
    else if request[i] > needRow[i] then Some(ExceedsMaximumNeed)
    else if request[i] > available[i] then Some(NotAvailable)
    else FirstRejection(request, needRow, available, i + 1)
  }

  /** The candidate state: the request moves from `available` to the
      requesting process's allocation, and out of its need. */
  function Tentative(pid: nat, request: Vector, available: Vector, allocation: Matrix, need: Matrix,
                     P: nat, R: nat): (c: Snapshot)
    requires WellFormed(available, allocation, need, P, R) && pid < P && |request| == R
  {
    Snapshot(Minus(available, request),
             allocation[pid := Plus(allocation[pid], request)],
             need[pid := Minus(need[pid], request)])
  }

  /** What `requestResources` returns. */
  function Grant(pid: nat, request: Vector, available: Vector, allocation: Matrix, need: Matrix,
                 P: nat, R: nat): (r: RequestResult)
    requires WellFormed(available, allocation, need, P, R) && pid < P && |request| == R
  {
    match FirstRejection(request, need[pid], available, 0)
    case Some(reason) => RequestResult(false, Some(reason), available, allocation, need, Unsafe)
    case None =>
      var c := Tentative(pid, request, available, allocation, need, P, R);
      var check := Safety(c.available, c.allocation, c.need, P, R);
      if check.isSafe then RequestResult(true, None, c.available, c.allocation, c.need, check)
      else RequestResult(false, Some(UnsafeState), available, allocation, need, Unsafe)
  }

  /** The loop of the tentative allocation in `requestResources`: the copies
      of `available` and of the requester's two rows are updated together,
      one resource type at a time. */
  method ApplyRequest(request: Vector, available: Vector, heldRow: Vector, needRow: Vector)
    returns (newAvailable: Vector, newHeld: Vector, newNeedRow: Vector)
    requires |request| == |available| == |heldRow| == |needRow|
    ensures newAvailable == Minus(available, request)
    ensures newHeld == Plus(heldRow, request)
    ensures newNeedRow == Minus(needRow, request)
  {
    newAvailable, newHeld, newNeedRow := available, heldRow, needRow;
    for i := 0 to |request|
      invariant |newAvailable| == |newHeld| == |newNeedRow| == |request|
      invariant forall k :: 0 <= k < i ==> newAvailable[k] == available[k] - request[k]
      invariant forall k :: i <= k < |request| ==> newAvailable[k] == available[k]
      invariant forall k :: 0 <= k < i ==> newHeld[k] == heldRow[k] + request[k]
      invariant forall k :: i <= k < |request| ==> newHeld[k] == heldRow[k]
      invariant forall k :: 0 <= k < i ==> newNeedRow[k] == needRow[k] - request[k]
      invariant forall k :: i <= k < |request| ==> newNeedRow[k] == needRow[k]
    {
      newAvailable := newAvailable[i := newAvailable[i] - request[i]];
      newHeld := newHeld[i := newHeld[i] + request[i]];
      newNeedRow := newNeedRow[i := newNeedRow[i] - request[i]];
    }
  }

  /** The tentative allocation of `requestResources`: the other rows of the
      copied matrices are the input rows themselves. */
  method PretendToAllocate(pid: nat, request: Vector, available: Vector, allocation: Matrix, need: Matrix,
                           P: nat, R: nat) returns (c: Snapshot)
    requires WellFormed(available, allocation, need, P, R) && pid < P && |request| == R
    ensures c == Tentative(pid, request, available, allocation, need, P, R)
  {
    var newAvailable, allocationRow, needRow := ApplyRequest(request, available, allocation[pid], need[pid]);
    c := Snapshot(newAvailable, allocation[pid := allocationRow], need[pid := needRow]);
  }

  /** `requestResources`. The caller's state is a value: when the request is
      rejected, the very state that was passed in comes back. */
  method RequestResources(pid: nat, request: Vector, available: Vector, allocation: Matrix, need: Matrix,
                          P: nat, R: nat) returns (r: RequestResult)
    requires WellFormed(available, allocation, need, P, R) && pid < P && |request| == R
    ensures r == Grant(pid, request, available, allocation, need, P, R)
  {
    for i := 0 to R
      invariant FirstRejection(request, need[pid], available, i) == FirstRejection(request, need[pid], available, 0)
    {
      if request[i] > need[pid][i] {
        return RequestResult(false, Some(ExceedsMaximumNeed), available, allocation, need, SafetyResult(false, []));
      }
      if request[i] > available[i] {
        return RequestResult(false, Some(NotAvailable), available, allocation, need, SafetyResult(false, []));
      }
    }

    var c := PretendToAllocate(pid, request, available, allocation, need, P, R);
    var newAvailable, newAllocation, newNeed := c.available, c.allocation, c.need;
    var safetyCheck := CheckSafety(newAvailable, newAllocation, newNeed, P, R);
    if safetyCheck.isSafe {
      r := RequestResult(true, None, newAvailable, newAllocation, newNeed, safetyCheck);
    } else {
      r := RequestResult(false, Some(UnsafeState), available, allocation, need, SafetyResult(false, []));
    }
  }

  // ---------------------------------------------------------------------------
  // What the grant protocol promises

  /** The screening result is the verdict at the first resource type that
      fails a check, the need check winning at a type that fails both. */
  lemma {:induction false} FirstRejectionCharacterised(request: Vector, needRow: Vector, available: Vector, i: nat)
    requires |request| == |needRow| == |available| && i <= |available|
    ensures FirstRejection(request, needRow, available, i) == None <==>
      forall k :: i <= k < |available| ==> Within(request, needRow, available, k)
    ensures FirstRejection(request, needRow, available, i) == Some(ExceedsMaximumNeed) <==>
      exists x :: i <= x < |available| && request[x] > needRow[x] &&
        forall k :: i <= k < x ==> Within(request, needRow, available, k)
    ensures FirstRejection(request, needRow, available, i) == Some(NotAvailable) <==>
      exists x :: i <= x < |available| && request[x] <= needRow[x] && request[x] > available[x] &&
        forall k :: i <= k < x ==> Within(request, needRow, available, k)
    ensures FirstRejection(request, needRow, available, i) != Some(UnsafeState)
    decreases |available| - i
  {
    if i < |available| {
      FirstRejectionCharacterised(request, needRow, available, i + 1);
      if Within(request, needRow, available, i) {
        var rest := FirstRejection(request, needRow, available, i + 1);
        if rest == Some(ExceedsMaximumNeed) {
          var x :| i + 1 <= x < |available| && request[x] > needRow[x] &&
            forall k :: i + 1 <= k < x ==> Within(request, needRow, available, k);
          assert forall k :: i <= k < x ==> Within(request, needRow, available, k);
        }
        if rest == Some(NotAvailable) {
          var x :| i + 1 <= x < |available| && request[x] <= needRow[x] && request[x] > available[x] &&
            forall k :: i + 1 <= k < x ==> Within(request, needRow, available, k);
          assert forall k :: i <= k < x ==> Within(request, needRow, available, k);
        }
      } else {
        assert !Within(request, needRow, available, i);
      }
    }
  }

  /** A rejected request returns the original state and the fixed unsafe
      sentinel, with a reason. */
  lemma RejectionLeavesStateUnchanged(pid: nat, request: Vector, available: Vector, allocation: Matrix,
                                      need: Matrix, P: nat, R: nat)
    requires WellFormed(available, allocation, need, P, R) && pid < P && |request| == R
    ensures var r := Grant(pid, request, available, allocation, need, P, R);
      !r.granted ==>
        r.newAvailable == available && r.newAllocation == allocation && r.newNeed == need &&
        r.safetyCheck == SafetyResult(false, []) && r.message.Some?
  {
  }

  /** Which of the three reasons a request is refused for, and when it is granted:
      the first violated check decides; a request passing every check is
      granted exactly when the safety algorithm accepts the candidate state,
      and then the result carries the candidate and that safety result. */
  lemma GrantDecision(pid: nat, request: Vector, available: Vector, allocation: Matrix, need: Matrix,
                      P: nat, R: nat)
    requires WellFormed(available, allocation, need, P, R) && pid < P && |request| == R
    ensures var r := Grant(pid, request, available, allocation, need, P, R);
      var c := Tentative(pid, request, available, allocation, need, P, R);
      var ok := forall k :: 0 <= k < R ==> Within(request, need[pid], available, k);
      (r.message == Some(ExceedsMaximumNeed) <==>
         exists x :: 0 <= x < R && request[x] > need[pid][x] &&
           forall k :: 0 <= k < x ==> Within(request, need[pid], available, k)) &&
      (r.message == Some(NotAvailable) <==>
         exists x :: 0 <= x < R && request[x] <= need[pid][x] && request[x] > available[x] &&
           forall k :: 0 <= k < x ==> Within(request, need[pid], available, k)) &&
      (r.granted <==> ok && Safety(c.available, c.allocation, c.need, P, R).isSafe) &&
      (r.message == Some(UnsafeState) <==> ok && !Safety(c.available, c.allocation, c.need, P, R).isSafe) &&
      (r.granted ==>
         r.message == None &&
         Snapshot(r.newAvailable, r.newAllocation, r.newNeed) == c &&
         r.safetyCheck == Safety(c.available, c.allocation, c.need, P, R))
  {
    FirstRejectionCharacterised(request, need[pid], available, 0);
  }

  /** The candidate state changes only `available` and the requesting
      process's rows, each by exactly the request. */
  lemma TentativeChangesOnlyRequester(pid: nat, request: Vector, available: Vector, allocation: Matrix,
                                      need: Matrix, P: nat, R: nat)
    requires WellFormed(available, allocation, need, P, R) && pid < P && |request| == R
    ensures var c := Tentative(pid, request, available, allocation, need, P, R);
      WellFormed(c.available, c.allocation, c.need, P, R) &&
      (forall j :: 0 <= j < R ==>
         c.available[j] == available[j] - request[j] &&
         c.allocation[pid][j] == allocation[pid][j] + request[j] &&
         c.need[pid][j] == need[pid][j] - request[j]) &&
      (forall p :: 0 <= p < P && p != pid ==> c.allocation[p] == allocation[p] && c.need[p] == need[p])
  {
  }

  /** Every unit is accounted for: for each resource type, available plus
      allocated is the same before and after, and so is allocation plus
      need for every entry — whether or not the request is granted. */
  lemma GrantConserves(pid: nat, request: Vector, available: Vector, allocation: Matrix, need: Matrix,
                       P: nat, R: nat)
    requires WellFormed(available, allocation, need, P, R) && pid < P && |request| == R
    ensures var r := Grant(pid, request, available, allocation, need, P, R);
      WellFormed(r.newAvailable, r.newAllocation, r.newNeed, P, R) &&
      (forall j :: 0 <= j < R ==>
         r.newAvailable[j] + ColumnTotal(r.newAllocation, j) == available[j] + ColumnTotal(allocation, j)) &&
      (forall p, j :: 0 <= p < P && 0 <= j < R ==>
         r.newAllocation[p][j] + r.newNeed[p][j] == allocation[p][j] + need[p][j])
  {
    var r := Grant(pid, request, available, allocation, need, P, R);
    if r.granted {
      var row := Plus(allocation[pid], request);
      forall j | 0 <= j < R
        ensures r.newAvailable[j] + ColumnTotal(r.newAllocation, j) == available[j] + ColumnTotal(allocation, j)
      {
        ColumnTotalUpdate(allocation, pid, row, j);
      }
    }
  }

  /** The need stays `maximum - allocation` across a request. */
  lemma GrantKeepsNeed(maximum: Matrix, pid: nat, request: Vector, available: Vector, allocation: Matrix,
                       need: Matrix, P: nat, R: nat)
    requires WellFormed(available, allocation, need, P, R) && pid < P && |request| == R
    requires IsNeedOf(maximum, allocation, need)
    ensures var r := Grant(pid, request, available, allocation, need, P, R);
      IsNeedOf(maximum, r.newAllocation, r.newNeed)
  {
    GrantConserves(pid, request, available, allocation, need, P, R);
  }

  /** The screening checks keep available and need non-negative; allocation
      stays non-negative when the request itself is. */
  lemma GrantKeepsNonNegative(pid: nat, request: Vector, available: Vector, allocation: Matrix, need: Matrix,
                              P: nat, R: nat)
    requires WellFormed(available, allocation, need, P, R) && pid < P && |request| == R
    requires NonNegative(available) && NonNegativeMatrix(need)
    ensures var r := Grant(pid, request, available, allocation, need, P, R);
      NonNegative(r.newAvailable) && NonNegativeMatrix(r.newNeed) &&
      (NonNegativeMatrix(allocation) && NonNegative(request) ==> NonNegativeMatrix(r.newAllocation))
  {
    FirstRejectionCharacterised(request, need[pid], available, 0);
    var r := Grant(pid, request, available, allocation, need, P, R);
    if r.granted {
      forall p | 0 <= p < P ensures NonNegative(r.newNeed[p]) {
        if p == pid {
          assert forall k :: 0 <= k < R ==> Within(request, need[pid], available, k);
        } else {
          assert NonNegative(need[p]);
        }
      }
      if NonNegativeMatrix(allocation) && NonNegative(request) {
        forall p | 0 <= p < P ensures NonNegative(r.newAllocation[p]) {
          assert NonNegative(allocation[p]);
        }
      }
    }
  }

  /** A granted request's safety result is a safe sequence of the state it
      returns, whatever the signs of the entries. */
  lemma GrantedIsSafe(pid: nat, request: Vector, available: Vector, allocation: Matrix, need: Matrix,
                      P: nat, R: nat)
    requires WellFormed(available, allocation, need, P, R) && pid < P && |request| == R
    ensures var r := Grant(pid, request, available, allocation, need, P, R);
      r.granted ==> IsSafeSequence(r.newAvailable, r.newAllocation, r.newNeed, P, R, r.safetyCheck.sequence)
  {
    var c := Tentative(pid, request, available, allocation, need, P, R);
    SafetySound(c.available, c.allocation, c.need, P, R);
  }

  /** A granted request leaves a safe state, and its safety result is a safe
      sequence for it; for non-negative data a request that passes both
      checks is granted exactly when its candidate state is safe. */
  lemma GrantedMeansSafe(pid: nat, request: Vector, available: Vector, allocation: Matrix, need: Matrix,
                         P: nat, R: nat)
    requires WellFormed(available, allocation, need, P, R) && pid < P && |request| == R
    requires NonNegativeMatrix(allocation) && NonNegative(request)
    ensures var r := Grant(pid, request, available, allocation, need, P, R);
      var c := Tentative(pid, request, available, allocation, need, P, R);
      (r.granted ==> IsSafeSequence(r.newAvailable, r.newAllocation, r.newNeed, P, R, r.safetyCheck.sequence)) &&
      (r.granted <==> (forall k :: 0 <= k < R ==> Within(request, need[pid], available, k)) &&
                      IsSafeState(c.available, c.allocation, c.need, P, R))
  {
    var c := Tentative(pid, request, available, allocation, need, P, R);
    FirstRejectionCharacterised(request, need[pid], available, 0);
    SafetySound(c.available, c.allocation, c.need, P, R);
    assert NonNegativeMatrix(c.allocation) by {
      forall p | 0 <= p < P ensures NonNegative(c.allocation[p]) {
        assert NonNegative(allocation[p]);
      }
    }
    SafetyComplete(c.available, c.allocation, c.need, P, R);
  }
}
