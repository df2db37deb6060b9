/** The default instance the application's state is initialised with: five
    virtual machines and three resource types (the textbook example of the
    Banker's algorithm), and what the safety check and the grant protocol do
    on it. Through the UI it never reaches the algorithm, because the setup
    step zeroes it before the check becomes available. */
module DefaultState {
  import opened ResourceState
  import opened SafetyCheck
  import opened Bankers

  const Available: Vector := [3, 3, 2]

  const Maximum: Matrix := [[7, 5, 3], [3, 2, 2], [9, 0, 2], [2, 2, 2], [4, 3, 3]]

  const Allocation: Matrix := [[0, 1, 0], [2, 0, 0], [3, 0, 2], [2, 1, 1], [0, 0, 2]]

  const Need: Matrix := [[7, 4, 3], [1, 2, 2], [6, 0, 0], [0, 1, 1], [4, 3, 1]]

  /** The state after VM 1's request [1, 0, 2] has been granted. */
  const AvailableAfterGrant: Vector := [2, 3, 0]
  const AllocationAfterGrant: Matrix := [[0, 1, 0], [3, 0, 2], [3, 0, 2], [2, 1, 1], [0, 0, 2]]
  const NeedAfterGrant: Matrix := [[7, 4, 3], [0, 2, 0], [6, 0, 0], [0, 1, 1], [4, 3, 1]]

  /** `calculateNeed` on the default maximum and allocation gives `Need`. */
  lemma DefaultNeed(need: Matrix)
    requires IsNeedOf(Maximum, Allocation, need)
    ensures need == Need
  {
    assert IsNeedOf(Maximum, Allocation, Need);
    NeedUnique(Maximum, Allocation, need, Need);
  }

  // One visit of the scan on concrete data: either the process finishes, or
  // a resource type j shows that its need does not fit.

  lemma Finishes(allocation: Matrix, need: Matrix, i: nat, s: Scan, t: Scan)
    requires IsMatrix(allocation, 5, 3) && IsMatrix(need, 5, 3) && Shaped(s, 5, 3) && i < 5
    requires !s.finish[i] && need[i][0] <= s.work[0] && need[i][1] <= s.work[1] && need[i][2] <= s.work[2]
    requires |t.work| == 3 && forall j :: 0 <= j < 3 ==> t.work[j] == s.work[j] + allocation[i][j]
    requires s.finish[i := true] == t.finish && s.sequence + [i] == t.sequence
    ensures Step(allocation, need, 5, 3, i, s) == t
  {
    assert Plus(s.work, allocation[i]) == t.work;
  }

  lemma Waits(allocation: Matrix, need: Matrix, i: nat, s: Scan, j: nat)
    requires IsMatrix(allocation, 5, 3) && IsMatrix(need, 5, 3) && Shaped(s, 5, 3) && i < 5 && j < 3
    requires s.finish[i] || need[i][j] > s.work[j]
    ensures Step(allocation, need, 5, 3, i, s) == s
  {
  }

  // One outer pass of the check on concrete data: it ends with every process
  // finished, or the pass made progress and the check goes on, or it did not.

  lemma Done(allocation: Matrix, need: Matrix, s: Scan)
    requires IsMatrix(allocation, 5, 3) && IsMatrix(need, 5, 3) && Shaped(s, 5, 3)
    requires |s.sequence| >= 5
    ensures Run(allocation, need, 5, 3, s) == Outcome(SafetyResult(true, s.sequence), 0)
  {
  }

  lemma Advances(allocation: Matrix, need: Matrix, s: Scan, t: Scan)
    requires IsMatrix(allocation, 5, 3) && IsMatrix(need, 5, 3) && Shaped(s, 5, 3) && Shaped(t, 5, 3)
    requires |s.sequence| < 5 && PassFrom(allocation, need, 5, 3, 0, s) == t && |t.sequence| != |s.sequence|
    ensures Run(allocation, need, 5, 3, s).result == Run(allocation, need, 5, 3, t).result
    ensures Run(allocation, need, 5, 3, s).passes == Run(allocation, need, 5, 3, t).passes + 1
  {
  }

  lemma Stuck(allocation: Matrix, need: Matrix, s: Scan)
    requires IsMatrix(allocation, 5, 3) && IsMatrix(need, 5, 3) && Shaped(s, 5, 3)
    requires |s.sequence| < 5 && PassFrom(allocation, need, 5, 3, 0, s) == s
    ensures Run(allocation, need, 5, 3, s) == Outcome(Unsafe, 1)
  {
  }

  /** First pass on the default state: VMs 1, 3 and 4 finish. */
  lemma DefaultFirstPass()
    ensures PassFrom(Allocation, Need, 5, 3, 0, Scan([3, 3, 2], [false, false, false, false, false], []))
         == Scan([7, 4, 5], [false, true, false, true, true], [1, 3, 4])
  {
    assert IsMatrix(Allocation, 5, 3) && IsMatrix(Need, 5, 3);
    var s0 := Scan([3, 3, 2], [false, false, false, false, false], []);
    var s1 := Scan([5, 3, 2], [false, true, false, false, false], [1]);
    Waits(Allocation, Need, 0, s0, 0);
    Finishes(Allocation, Need, 1, s0, s1);
    DefaultFirstPassTail();
  }

  /** The second half of the first pass: from VM 2 on, VMs 3 and 4 finish. */
  lemma DefaultFirstPassTail()
    ensures PassFrom(Allocation, Need, 5, 3, 2, Scan([5, 3, 2], [false, true, false, false, false], [1]))
         == Scan([7, 4, 5], [false, true, false, true, true], [1, 3, 4])
  {
    assert IsMatrix(Allocation, 5, 3) && IsMatrix(Need, 5, 3);
    var s1 := Scan([5, 3, 2], [false, true, false, false, false], [1]);
    var s3 := Scan([7, 4, 3], [false, true, false, true, false], [1, 3]);
    var s4 := Scan([7, 4, 5], [false, true, false, true, true], [1, 3, 4]);
    Waits(Allocation, Need, 2, s1, 0);
    Finishes(Allocation, Need, 3, s1, s3);
    Finishes(Allocation, Need, 4, s3, s4);
  }

  /** Second pass on the default state: VMs 0 and 2 finish. */
  lemma DefaultSecondPass()
    ensures PassFrom(Allocation, Need, 5, 3, 0, Scan([7, 4, 5], [false, true, false, true, true], [1, 3, 4]))
         == Scan([10, 5, 7], [true, true, true, true, true], [1, 3, 4, 0, 2])
  {
    assert IsMatrix(Allocation, 5, 3) && IsMatrix(Need, 5, 3);
    var s0 := Scan([7, 4, 5], [false, true, false, true, true], [1, 3, 4]);
    var s1 := Scan([7, 5, 5], [true, true, false, true, true], [1, 3, 4, 0]);
    var s3 := Scan([10, 5, 7], [true, true, true, true, true], [1, 3, 4, 0, 2]);
    Finishes(Allocation, Need, 0, s0, s1);
    Waits(Allocation, Need, 1, s1, 0);
    Finishes(Allocation, Need, 2, s1, s3);
    Waits(Allocation, Need, 3, s3, 0);
    Waits(Allocation, Need, 4, s3, 0);
  }

  /** The outer loop on the default state: two passes, then every VM has finished. */
  lemma DefaultRun()
    ensures Run(Allocation, Need, 5, 3, Scan([3, 3, 2], [false, false, false, false, false], []))
         == Outcome(SafetyResult(true, [1, 3, 4, 0, 2]), 2)
  {
    var s0 := Scan([3, 3, 2], [false, false, false, false, false], []);
    var s1 := Scan([7, 4, 5], [false, true, false, true, true], [1, 3, 4]);
    var s2 := Scan([10, 5, 7], [true, true, true, true, true], [1, 3, 4, 0, 2]);
    Done(Allocation, Need, s2);
    DefaultSecondPass();
    Advances(Allocation, Need, s1, s2);
    DefaultFirstPass();
    Advances(Allocation, Need, s0, s1);
  }

  /** The default state is safe, with safe sequence 1, 3, 4, 0, 2, found in two passes. */
  lemma DefaultStateIsSafe(need: Matrix)
    requires IsNeedOf(Maximum, Allocation, need)
    ensures Safety(Available, Allocation, need, 5, 3) == SafetyResult(true, [1, 3, 4, 0, 2])
    ensures SafetyPasses(Available, Allocation, need, 5, 3) == 2
  {
    DefaultNeed(need);
    assert Initial(Available, 5) == Scan([3, 3, 2], [false, false, false, false, false], []);
    DefaultRun();
  }

  /** The candidate state of VM 1's request [1, 0, 2] is the state after the grant. */
  lemma RequestOfVm1Candidate()
    ensures Tentative(1, [1, 0, 2], Available, Allocation, Need, 5, 3)
         == Snapshot(AvailableAfterGrant, AllocationAfterGrant, NeedAfterGrant)
  {
    assert Minus(Available, [1, 0, 2]) == AvailableAfterGrant;
    assert Plus(Allocation[1], [1, 0, 2]) == [3, 0, 2];
    assert Minus(Need[1], [1, 0, 2]) == [0, 2, 0];
    assert Allocation[1 := [3, 0, 2]] == AllocationAfterGrant;
    assert Need[1 := [0, 2, 0]] == NeedAfterGrant;
  }

  lemma AfterGrantFirstPass()
    ensures PassFrom(AllocationAfterGrant, NeedAfterGrant, 5, 3, 0, Scan([2, 3, 0], [false, false, false, false, false], []))
         == Scan([7, 4, 5], [false, true, false, true, true], [1, 3, 4])
  {
    assert IsMatrix(AllocationAfterGrant, 5, 3) && IsMatrix(NeedAfterGrant, 5, 3);
    var s0 := Scan([2, 3, 0], [false, false, false, false, false], []);
    var s1 := Scan([5, 3, 2], [false, true, false, false, false], [1]);
    Waits(AllocationAfterGrant, NeedAfterGrant, 0, s0, 0);
    Finishes(AllocationAfterGrant, NeedAfterGrant, 1, s0, s1);
    AfterGrantFirstPassTail();
  }

  /** The second half of the first pass: from VM 2 on, VMs 3 and 4 finish. */
  lemma AfterGrantFirstPassTail()
    ensures PassFrom(AllocationAfterGrant, NeedAfterGrant, 5, 3, 2, Scan([5, 3, 2], [false, true, false, false, false], [1]))
         == Scan([7, 4, 5], [false, true, false, true, true], [1, 3, 4])
  {
    assert IsMatrix(AllocationAfterGrant, 5, 3) && IsMatrix(NeedAfterGrant, 5, 3);
    var s1 := Scan([5, 3, 2], [false, true, false, false, false], [1]);
    var s3 := Scan([7, 4, 3], [false, true, false, true, false], [1, 3]);
    var s4 := Scan([7, 4, 5], [false, true, false, true, true], [1, 3, 4]);
    Waits(AllocationAfterGrant, NeedAfterGrant, 2, s1, 0);
    Finishes(AllocationAfterGrant, NeedAfterGrant, 3, s1, s3);
    Finishes(AllocationAfterGrant, NeedAfterGrant, 4, s3, s4);
  }

  lemma AfterGrantSecondPass()
    ensures PassFrom(AllocationAfterGrant, NeedAfterGrant, 5, 3, 0,
                     Scan([7, 4, 5], [false, true, false, true, true], [1, 3, 4]))
         == Scan([10, 5, 7], [true, true, true, true, true], [1, 3, 4, 0, 2])
  {
    assert IsMatrix(AllocationAfterGrant, 5, 3) && IsMatrix(NeedAfterGrant, 5, 3);
    var s0 := Scan([7, 4, 5], [false, true, false, true, true], [1, 3, 4]);
    var s1 := Scan([7, 5, 5], [true, true, false, true, true], [1, 3, 4, 0]);
    var s3 := Scan([10, 5, 7], [true, true, true, true, true], [1, 3, 4, 0, 2]);
    Finishes(AllocationAfterGrant, NeedAfterGrant, 0, s0, s1);
    Waits(AllocationAfterGrant, NeedAfterGrant, 1, s1, 0);
    Finishes(AllocationAfterGrant, NeedAfterGrant, 2, s1, s3);
    Waits(AllocationAfterGrant, NeedAfterGrant, 3, s3, 0);
    Waits(AllocationAfterGrant, NeedAfterGrant, 4, s3, 0);
  }

  lemma AfterGrantRun()
    ensures Run(AllocationAfterGrant, NeedAfterGrant, 5, 3, Scan([2, 3, 0], [false, false, false, false, false], []))
         == Outcome(SafetyResult(true, [1, 3, 4, 0, 2]), 2)
  {
    var s0 := Scan([2, 3, 0], [false, false, false, false, false], []);
    var s1 := Scan([7, 4, 5], [false, true, false, true, true], [1, 3, 4]);
    var s2 := Scan([10, 5, 7], [true, true, true, true, true], [1, 3, 4, 0, 2]);
    Done(AllocationAfterGrant, NeedAfterGrant, s2);
    AfterGrantSecondPass();
    Advances(AllocationAfterGrant, NeedAfterGrant, s1, s2);
    AfterGrantFirstPass();
    Advances(AllocationAfterGrant, NeedAfterGrant, s0, s1);
  }

  /** VM 1 asks for [1, 0, 2]: both checks pass and the candidate state is
      safe, with the same safe sequence 1, 3, 4, 0, 2. */
  lemma RequestOfVm1Granted()
    ensures Grant(1, [1, 0, 2], Available, Allocation, Need, 5, 3)
         == RequestResult(true, None, AvailableAfterGrant, AllocationAfterGrant, NeedAfterGrant,
                          SafetyResult(true, [1, 3, 4, 0, 2]))
  {
    RequestOfVm1Candidate();
    assert Initial(AvailableAfterGrant, 5) == Scan([2, 3, 0], [false, false, false, false, false], []);
    AfterGrantRun();
    assert FirstRejection([1, 0, 2], Need[1], Available, 0) == None;
  }

  /** After that grant, VM 0's request [0, 2, 0] passes both checks but would
      leave no safe sequence, so it is denied and the state is kept. */
  lemma ThenRequestOfVm0Denied()
    ensures Grant(0, [0, 2, 0], AvailableAfterGrant, AllocationAfterGrant, NeedAfterGrant, 5, 3)
         == RequestResult(false, Some(UnsafeState), AvailableAfterGrant, AllocationAfterGrant, NeedAfterGrant,
                          SafetyResult(false, []))
  {
    var available: Vector := [2, 1, 0];
    var allocation: Matrix := [[0, 3, 0], [3, 0, 2], [3, 0, 2], [2, 1, 1], [0, 0, 2]];
    var need: Matrix := [[7, 2, 3], [0, 2, 0], [6, 0, 0], [0, 1, 1], [4, 3, 1]];
    assert Minus(AvailableAfterGrant, [0, 2, 0]) == available;
    assert Plus(AllocationAfterGrant[0], [0, 2, 0]) == [0, 3, 0];
    assert Minus(NeedAfterGrant[0], [0, 2, 0]) == [7, 2, 3];
    assert AllocationAfterGrant[0 := [0, 3, 0]] == allocation;
    assert NeedAfterGrant[0 := [7, 2, 3]] == need;
    assert FirstRejection([0, 2, 0], NeedAfterGrant[0], AvailableAfterGrant, 0) == None;

    var s0 := Scan([2, 1, 0], [false, false, false, false, false], []);
    assert Initial(available, 5) == s0;
    Waits(allocation, need, 0, s0, 0);
    Waits(allocation, need, 1, s0, 1);
    Waits(allocation, need, 2, s0, 0);
    Waits(allocation, need, 3, s0, 2);
    Waits(allocation, need, 4, s0, 0);
    Stuck(allocation, need, s0);
  }

  /** The candidate state of VM 0's request [0, 2, 0] made in the default state. */
  const AllocationIfVm0: Matrix := [[0, 3, 0], [2, 0, 0], [3, 0, 2], [2, 1, 1], [0, 0, 2]]
  const NeedIfVm0: Matrix := [[7, 2, 3], [1, 2, 2], [6, 0, 0], [0, 1, 1], [4, 3, 1]]

  lemma RequestOfVm0Candidate()
    ensures Tentative(0, [0, 2, 0], Available, Allocation, Need, 5, 3)
         == Snapshot([3, 1, 2], AllocationIfVm0, NeedIfVm0)
  {
    assert Minus(Available, [0, 2, 0]) == [3, 1, 2];
    assert Plus(Allocation[0], [0, 2, 0]) == [0, 3, 0];
    assert Minus(Need[0], [0, 2, 0]) == [7, 2, 3];
    assert Allocation[0 := [0, 3, 0]] == AllocationIfVm0;
    assert Need[0 := [7, 2, 3]] == NeedIfVm0;
  }

  /** Pass 1 on that candidate: only VM 3 finishes. */
  lemma IfVm0FirstPass()
    ensures PassFrom(AllocationIfVm0, NeedIfVm0, 5, 3, 0, Scan([3, 1, 2], [false, false, false, false, false], []))
         == Scan([5, 2, 3], [false, false, false, true, false], [3])
  {
    assert IsMatrix(AllocationIfVm0, 5, 3) && IsMatrix(NeedIfVm0, 5, 3);
    var p0 := Scan([3, 1, 2], [false, false, false, false, false], []);
    var p1 := Scan([5, 2, 3], [false, false, false, true, false], [3]);
    Waits(AllocationIfVm0, NeedIfVm0, 0, p0, 0);
    Waits(AllocationIfVm0, NeedIfVm0, 1, p0, 1);
    Waits(AllocationIfVm0, NeedIfVm0, 2, p0, 0);
    Finishes(AllocationIfVm0, NeedIfVm0, 3, p0, p1);
    Waits(AllocationIfVm0, NeedIfVm0, 4, p1, 1);
  }

  /** Pass 2: VMs 1 and 2 finish. */
  lemma IfVm0SecondPass()
    ensures PassFrom(AllocationIfVm0, NeedIfVm0, 5, 3, 0, Scan([5, 2, 3], [false, false, false, true, false], [3]))
         == Scan([10, 2, 5], [false, true, true, true, false], [3, 1, 2])
  {
    assert IsMatrix(AllocationIfVm0, 5, 3) && IsMatrix(NeedIfVm0, 5, 3);
    var p1 := Scan([5, 2, 3], [false, false, false, true, false], [3]);
    var q1 := Scan([7, 2, 3], [false, true, false, true, false], [3, 1]);
    var p2 := Scan([10, 2, 5], [false, true, true, true, false], [3, 1, 2]);
    Waits(AllocationIfVm0, NeedIfVm0, 0, p1, 0);
    Finishes(AllocationIfVm0, NeedIfVm0, 1, p1, q1);
    Finishes(AllocationIfVm0, NeedIfVm0, 2, q1, p2);
    Waits(AllocationIfVm0, NeedIfVm0, 3, p2, 0);
    Waits(AllocationIfVm0, NeedIfVm0, 4, p2, 1);
  }

  /** Pass 3: VMs 0 and 4 finish. */
  lemma IfVm0ThirdPass()
    ensures PassFrom(AllocationIfVm0, NeedIfVm0, 5, 3, 0, Scan([10, 2, 5], [false, true, true, true, false], [3, 1, 2]))
         == Scan([10, 5, 7], [true, true, true, true, true], [3, 1, 2, 0, 4])
  {
    assert IsMatrix(AllocationIfVm0, 5, 3) && IsMatrix(NeedIfVm0, 5, 3);
    var p2 := Scan([10, 2, 5], [false, true, true, true, false], [3, 1, 2]);
    var q0 := Scan([10, 5, 5], [true, true, true, true, false], [3, 1, 2, 0]);
    var p3 := Scan([10, 5, 7], [true, true, true, true, true], [3, 1, 2, 0, 4]);
    Finishes(AllocationIfVm0, NeedIfVm0, 0, p2, q0);
    Waits(AllocationIfVm0, NeedIfVm0, 1, q0, 0);
    Waits(AllocationIfVm0, NeedIfVm0, 2, q0, 0);
    Waits(AllocationIfVm0, NeedIfVm0, 3, q0, 0);
    Finishes(AllocationIfVm0, NeedIfVm0, 4, q0, p3);
  }

  lemma IfVm0Run()
    ensures Run(AllocationIfVm0, NeedIfVm0, 5, 3, Scan([3, 1, 2], [false, false, false, false, false], []))
         == Outcome(SafetyResult(true, [3, 1, 2, 0, 4]), 3)
  {
    var p0 := Scan([3, 1, 2], [false, false, false, false, false], []);
    var p1 := Scan([5, 2, 3], [false, false, false, true, false], [3]);
    var p2 := Scan([10, 2, 5], [false, true, true, true, false], [3, 1, 2]);
    var p3 := Scan([10, 5, 7], [true, true, true, true, true], [3, 1, 2, 0, 4]);
    Done(AllocationIfVm0, NeedIfVm0, p3);
    IfVm0ThirdPass();
    Advances(AllocationIfVm0, NeedIfVm0, p2, p3);
    IfVm0SecondPass();
    Advances(AllocationIfVm0, NeedIfVm0, p1, p2);
    IfVm0FirstPass();
    Advances(AllocationIfVm0, NeedIfVm0, p0, p1);
  }

  /** From the default state the same request of VM 0 is granted: the
      candidate state is safe, with safe sequence 3, 1, 2, 0, 4. */
  lemma RequestOfVm0GrantedFromDefault()
    ensures Grant(0, [0, 2, 0], Available, Allocation, Need, 5, 3)
         == RequestResult(true, None, [3, 1, 2], AllocationIfVm0, NeedIfVm0,
                          SafetyResult(true, [3, 1, 2, 0, 4]))
  {
    RequestOfVm0Candidate();
    assert Initial([3, 1, 2], 5) == Scan([3, 1, 2], [false, false, false, false, false], []);
    IfVm0Run();
    assert FirstRejection([0, 2, 0], Need[0], Available, 0) == None;
  }

  /** The checks run resource type by resource type: [4, 5, 0] from VM 0 is
      refused as not available (type 0), although type 1 exceeds its need. */
  lemma AvailabilityAtEarlierTypeWins()
    ensures Grant(0, [4, 5, 0], Available, Allocation, Need, 5, 3).message == Some(NotAvailable)
  {
  }

  /** At one resource type, the need check comes first: [0, 5, 0] from VM 0
      exceeds both its need and what is available, and is refused for its need. */
  lemma NeedCheckWinsAtSameType()
    ensures Grant(0, [0, 5, 0], Available, Allocation, Need, 5, 3).message == Some(ExceedsMaximumNeed)
  {
  }
}
