# Banker's algorithm for virtual machines — a verified model

The application simulates Dijkstra's Banker's algorithm for a set of virtual machines (VMs, the
processes) that share several resource types. Its algorithmic core is
`src/lib/bankersAlgorithm.ts`, which exports three operations:

- `calculateNeed` builds the need matrix as `maximum - allocation`, entry by entry.
- `checkSafety` is the safety algorithm. It copies `available` into a work vector and keeps
  finish flags. It scans the VMs in index order, pass after pass. Every unfinished VM whose need
  fits in the work vector finishes and releases what it holds. The answer is safe, with the order
  in which the VMs finished, once all of them have finished. It is unsafe, with an empty
  sequence, as soon as a whole pass finishes nobody.
- `requestResources` is the grant protocol. It screens the request one resource type at a time.
  At each type it first rejects a request above the VM's remaining need, then one above what is
  available. If nothing is rejected, it moves the request tentatively from `available` into the
  VM's allocation and out of its need. It then runs the safety algorithm on that candidate
  state. It returns the candidate only if the candidate is safe. Otherwise it returns the
  original state and the fixed sentinel `{isSafe: false, sequence: []}`.

The Dafny project has four modules:

- `ResourceState` (`resource_state.dfy`) holds the vocabulary: vectors, matrices, column sums and
  what a safe sequence is. A safe sequence is a permutation of the VMs in which each VM's need
  fits in `available` plus what its predecessors hold.
- `SafetyCheck` (`safety.dfy`) contains `checkSafety`. `Step`, `PassFrom` and `Run` state the
  algorithm as functions of its state. The loop program `CheckSafety` over arrays is proved equal
  to them. Lemmas prove the answer sound and complete for safe sequences, and bound the number
  of passes.
- `Bankers` (`bankers.dfy`) contains `calculateNeed` and `requestResources`, each as a loop
  program. `Grant` is the reference function behind `RequestResources`. Lemmas cover its
  decisions, its rollback and what it conserves.
- `DefaultState` (`default_state.dfy`) holds the 5×3 instance that initialises the application's
  state. The setup step zeroes it before the check can be used, so through the UI it never
  reaches the algorithm. The module also holds lemmas that compute what the code does on it, and
  the helpers that run one visit and one pass on concrete data.

The inputs of all three operations are values (`seq<int>`, `seq<seq<int>>`). The source never
writes to its arguments. It copies what it updates: `work`, `finish`, and `newAvailable` with
the requester's rows. In the model, `work` and `finish` are local arrays that the loops update in
place. The tentative allocation updates local sequence copies entry by entry.

Where the code and the usual description of this protocol differ, the model follows the code.
Two differences matter:

- The code interleaves its two screening checks per resource type
  (`src/lib/bankersAlgorithm.ts:78-100`). It does not check all needs first and then all
  availabilities. So `[4, 5, 0]` from VM 0 is refused as not available at type 0, although type 1
  exceeds its need (`DefaultState.AvailabilityAtEarlierTypeWins`).
- In the default state, VM 0's request `[0, 2, 0]` is often quoted as denied for leading to an
  unsafe state. The code grants it: the candidate state has the safe sequence 3, 1, 2, 0, 4
  (`DefaultState.RequestOfVm0GrantedFromDefault`). The same request is denied as unsafe only after
  VM 1's request `[1, 0, 2]` has been granted (`DefaultState.ThenRequestOfVm0Denied`).

## Model

| member | source | states |
|---|---|---|
| Bankers.CalculateNeed | src/lib/bankersAlgorithm.ts:1-10 | The result has the rows and row lengths of `maximum`, and each entry is `maximum[i][j] - allocation[i][j]`. It is non-negative exactly when no allocation exceeds its maximum, since nothing checks the sign. |
| Bankers.NeedUnique | src/lib/bankersAlgorithm.ts:1-10 | The need matrix is determined by maximum and allocation: any two matrices that satisfy the need relation are equal. |
| SafetyCheck.NeedFits | src/lib/bankersAlgorithm.ts:30-37 | The `canAllocate` loop, with its early exit, is true exactly when every need entry of the row is at most the work entry. |
| SafetyCheck.Release | src/lib/bankersAlgorithm.ts:40-42 | After the release loop, the work vector is the old work vector plus the allocation row, entry by entry. |
| SafetyCheck.Visit | src/lib/bankersAlgorithm.ts:29-49 | One iteration of the scan updates `work`, `finish` and the sequence exactly as `Step` does: an unfinished VM that fits releases its row, is marked finished and is appended. `fired` (the source's `found` update) is set exactly when the sequence grew. |
| SafetyCheck.CheckSafety | src/lib/bankersAlgorithm.ts:12-58 | The loop program returns exactly the reference result `Safety`. A safe answer carries a safe sequence; an unsafe answer carries the empty sequence. |
| SafetyCheck.PassFromConserves | src/lib/bankersAlgorithm.ts:28-50 | A pass only appends to the sequence, and every appended VM is one fewer unfinished VM (unfinished count plus sequence length is invariant). |
| SafetyCheck.PassFromStuck | src/lib/bankersAlgorithm.ts:28-54 | If a pass finishes nobody (`found` stays false), the state is unchanged and no unfinished VM's need fits in the work vector. |
| SafetyCheck.StuckHasNoSafeSequence | src/lib/bankersAlgorithm.ts:25-54 | With non-negative allocations, a reachable state in which no unfinished VM fits admits no safe sequence, because releasing more never leaves less. |
| SafetyCheck.RunPassBound | src/lib/bankersAlgorithm.ts:25-55 | From a reachable state, the outer loop makes at most as many passes as there are unfinished VMs. |
| SafetyCheck.SafetySound | src/lib/bankersAlgorithm.ts:44-57 | A safe answer's sequence is a permutation of 0..P-1 in which each VM's need fits in `available` plus the allocations of the VMs before it. An unsafe answer's sequence is empty. |
| SafetyCheck.SafetyComplete | src/lib/bankersAlgorithm.ts:25-57 | For non-negative allocations, the answer is safe if and only if some safe sequence exists. |
| SafetyCheck.SafetyPassBound | src/lib/bankersAlgorithm.ts:25-55 | The algorithm terminates within P outer passes. |
| Bankers.ApplyRequest | src/lib/bankersAlgorithm.ts:107-111 | The update loop leaves available minus the request, the requester's allocation row plus the request, and its need row minus the request, entry by entry. |
| Bankers.PretendToAllocate | src/lib/bankersAlgorithm.ts:102-111 | The copied state is exactly the candidate `Tentative`: the two updated rows replace the requester's rows, and every other row is the input row. |
| Bankers.RequestResources | src/lib/bankersAlgorithm.ts:60-134 | The loop program returns exactly the reference result `Grant`: screening, then the tentative allocation, then the safety check and commit or rollback. |
| Bankers.FirstRejectionCharacterised | src/lib/bankersAlgorithm.ts:78-100 | Screening passes exactly when every type is within both need and available. It reports "exceeds need" exactly when the first failing type exceeds the need. It reports "not available" exactly when the first failing type is within need but above available. It never reports an unsafe state. |
| Bankers.RejectionLeavesStateUnchanged | src/lib/bankersAlgorithm.ts:78-133 | Every rejected request returns the original available, allocation and need, the sentinel `{false, []}` and a reason. |
| Bankers.GrantDecision | src/lib/bankersAlgorithm.ts:78-133 | Each of the three reasons is given exactly when its condition holds. A request is granted exactly when it passes screening and the candidate is safe, and then it returns the candidate and that safety result. |
| Bankers.TentativeChangesOnlyRequester | src/lib/bankersAlgorithm.ts:102-111 | The candidate changes available and the requester's two rows, each by exactly the request; every other row is identical. |
| ResourceState.ColumnTotalIsColSum | src/lib/bankersAlgorithm.ts:102-111 | The column total used to state conservation equals the column sum over the processes 0..n-1 in index order, which is the sum that releases add to `work`. |
| Bankers.GrantConserves | src/lib/bankersAlgorithm.ts:102-133 | For every resource type, available plus the total allocated is the same after the call. Allocation plus need is the same for every entry, whether or not the request is granted. |
| Bankers.GrantKeepsNeed | src/lib/bankersAlgorithm.ts:102-133 | If need was `maximum - allocation` before the call, it still is afterwards. |
| Bankers.GrantKeepsNonNegative | src/lib/bankersAlgorithm.ts:78-111 | The screening checks keep available and need non-negative. Allocation stays non-negative for non-negative requests. |
| Bankers.GrantedIsSafe | src/lib/bankersAlgorithm.ts:113-123 | For any well-formed data, a granted request's safety result is a safe sequence of the returned state. |
| Bankers.GrantedMeansSafe | src/lib/bankersAlgorithm.ts:113-123 | A granted request's safety result is a safe sequence of the returned state. For non-negative data, a request is granted exactly when it passes screening and its candidate state is safe. |
| DefaultState.DefaultNeed | src/pages/Index.tsx:20-34 | On the default maximum and allocation, the need is `[[7,4,3],[1,2,2],[6,0,0],[0,1,1],[4,3,1]]`. |
| DefaultState.DefaultStateIsSafe | src/pages/Index.tsx:20-34 | The default state is safe, with sequence 1, 3, 4, 0, 2, found in two passes. |
| DefaultState.RequestOfVm1Granted | src/pages/Index.tsx:20-34 | VM 1's request `[1, 0, 2]` is granted. The returned state has available `[2, 3, 0]`, and the safety sequence is 1, 3, 4, 0, 2. |
| DefaultState.ThenRequestOfVm0Denied | src/pages/Index.tsx:20-34 | After that grant, VM 0's request `[0, 2, 0]` passes screening but is denied as unsafe. The state comes back unchanged with the sentinel. |
| DefaultState.RequestOfVm0GrantedFromDefault | src/pages/Index.tsx:20-34 | From the default state itself, VM 0's request `[0, 2, 0]` is granted, with safe sequence 3, 1, 2, 0, 4. |
| DefaultState.AvailabilityAtEarlierTypeWins | src/lib/bankersAlgorithm.ts:78-100 | `[4, 5, 0]` from VM 0 in the default state is refused as not available: type 0 fails before type 1 is looked at. |
| DefaultState.NeedCheckWinsAtSameType | src/lib/bankersAlgorithm.ts:78-90 | `[0, 5, 0]` from VM 0 exceeds both its need and what is available at type 1, and is refused for its need. |

## Left out

- The React pages and components: state hooks, forms, toasts and rendering. Only the default data of `src/pages/Index.tsx` is modelled.
- JavaScript number semantics: entries are unbounded integers, with no floating point, `NaN` or `undefined`. The request form converts empty entries to 0 on submit. The matrix form can pass an empty string `''` through to `calculateNeed` and `checkSafety`, where `+=` would concatenate strings. Such entries are outside the model's `int` domain and are not modelled.
- Message strings: they are modelled as the `Reason` values `ExceedsMaximumNeed`, `NotAvailable` and `UnsafeState`, and the text itself is not kept.
- The `maximum` parameter of `checkSafety` and `requestResources`: neither function reads it, so the model does not take it.
- Dimension checks: the code validates no dimensions. The shapes it indexes with become preconditions: `|available| == R`, allocation and need being `P × R`, `processId < P` and `|request| == R`. `CalculateNeed` requires allocation to be at least as large as maximum. Out-of-range reads, which yield `undefined` or throw in JavaScript, are not modelled.
- Aliasing: the source returns the caller's own arrays on rejection and fresh copies on a grant. On values both are the state itself, so reference identity is not modelled.
- SafetyCheck.SafetyComplete: it requires non-negative allocations. With a negative allocation, releasing it shrinks the work vector. The scan order can then miss a safe sequence, so "unsafe" does not imply that none exists.
- Bankers.GrantedMeansSafe: its if-and-only-if also needs non-negative allocations and requests, for the same reason. Its first half holds without them and is stated on its own by `Bankers.GrantedIsSafe`.
- The rejection for an unsafe starting state: the code has none, because the UI disables the request form instead. So `requestResources` may be called on an unsafe state, and the model allows that.
- Determinism and repeatability of `checkSafety`: these hold because `Safety` is a function of its inputs and `CheckSafety` returns exactly it. No separate lemma states them.
