# Obol's money kernel, verified

Obol gates cluster jobs against prepaid budgets. This project models its core and proves what
the core is for:

- **the kernel** (`Kernel`, `Budgets`, `Admission`, `Billing`, `Books`, `Burn`): 1:1 escrows and N-task
  array escrows submitted, started, repriced and settled against one balance;
- **the burst token bucket** (`TokenBucket`, `Pacing`, `Tokens`, `Int64`) and its lock-free reader (`ReadView`);
- **durability** (`LogFormat`, `GroupCommit`, `Recovery`, `Durable`): the framed log, group commit
  with a background fsync, snapshots, and recovery by replaying commands through the live methods;
- **protocols over several budgets** (`Transfer`, `Registries`, `Funding`, `MultiSource`, `FanOut`,
  `Server`, `Binding`, `Starting`, `Settlement`, `Routing`): the journaled two-leg transfer, the
  all-or-nothing multi-source gate, bind and settle fan-outs, runtime apportionment, array-task
  routing;
- **the janitors** (`Janitor`).

`Arith` and `Sums` hold Go's truncating division, sums over maps and counts over sequences.

## How it is modelled

`Budgets.Budget` is the budget as an object, one method per locked Go method, its fields updated in
place. Each method is proved to leave exactly the state, error, log and published view of one
transition function of `Kernel`; the properties over whole runs are proved of those functions. What
each transition does is stated a second time without naming the function it is written with: who is
admitted and at what price (`Admission`), who is billed what (`Billing`), which tokens are reserved
and returned (`Pacing`). `Op`
is one live operation: a call (with the outcome of its log append) or an accruing read that logs
nothing (`Report`, `BurstSnapshot`). `Run` is a whole run and the log it leaves. The registry, the
multi-source handlers and the janitors are likewise methods proved against functions on values.
Concurrent parts (group commit, transfers with crashes, array-task bookkeeping) are state machines
whose actions are the sections between lock operations, so a sequence of actions is an interleaving.

Assumptions made explicit:

- Money, time and rates are mathematical integers; `Int64` proves separately when the bucket's
  arithmetic stays in 64 bits. Division is Go's truncating division, written out.
- The float expressions are abstract: the bucket ceiling is any function of (pct, B0), assumed
  non-negative and monotone in B0 only where a lemma says `CeilingOK`, and at most 2^62 for B0 below 2^62
  and pct at most 1 (which rounding to the nearest float respects) only where one says `Rounds`; the K
  rate test is any predicate of its inputs.
- JSON is a codec whose decoder inverts its encoder on the commands of the log at hand, each
  encoding and checksum fitting its header word; crc is otherwise any function.
- An append is whole or absent, and survives a process crash once it returns.
- Clocks, randomness and the outcome of each append are parameters.

A run is *safe* for recovery (`Recovery.Safe`) when its appends succeed, no accruing call comes
before the bucket's own clock, and, while burst is on, the allocation and window change only when no
unlogged accrual is outstanding. Any number of unlogged accruals may otherwise happen in between.

## Where the code and its comments part

The code is modelled as it is; each point below has a lemma.

- `SubmitAt` does not check the walltime's sign: a negative one is accepted and mints balance
  (`Books.NegativeWalltimeMintsBalance`), exactly when the cost c*w is negative
  (`Books.SubmitKeepsMoneyIff`).
- A task settlement is logged before it is validated, so a refused one stays in the log and makes it
  unreplayable (`Recovery.RefusedSettlementPoisonsLog`).
- `TopUp`, `Withdraw` and `SetWindow` do not accrue first, so an unlogged accrual before one of them
  makes the replayed pot differ (`Recovery.TopUpAfterReportDiverges`,
  `Recovery.WindowAfterReportDiverges`; exactly when: `Recovery.RetermMatchesIff`,
  `Recovery.WindowMatchesIff`).
- `Report` and `BurstSnapshot` are described as reads but accrue, and at an instant before the bucket's
  clock they roll it back without logging or publishing. A budget created with burst on starts its
  clock at the window start, so any read before the window opens does this. The lock-free query and
  the locked gate then answer differently (`ReadView.BackwardReadMisleads`; exactly when:
  `ReadView.LockFreeAgreesIff`), and the live pot runs ahead of the recovered one
  (`Recovery.ReportBeforeWindowDiverges`; exactly when: `Recovery.BackwardReadRecoversIff`).
- `Withdraw` and `SetWindow` do not re-clamp the bucket (`Tokens.WithdrawalLeavesBounds`,
  `Int64.ShrunkWindowOverflows`; exactly when: `Tokens.WithdrawAndWindowBounds`).
- On the path without a reservation `rLive` is raised before the append, so a failed append leaks
  burn (`Burn.FailedAppendLeaksBurn` and `Burn.FailedTaskAppendLeaksBurn` say exactly when).
- The bound B0*max(T, dt, W) + T < 2^63 does not by itself keep the bucket in int64: a one-second
  window, a shrunk window that keeps the old remainder, and leaked burn each overflow within it
  (`Int64.OneSecondWindowOverflows`, `Int64.ShrunkWindowOverflows`, `Int64.LeakedBurnOverflows`; the exact
  condition after every run is `Int64.RunStaysInInt64Iff`).
- A bind is meant to reprice all legs or none; with a failing append the legs' rates part
  (`Binding.OneRateIff`). A roll-back whose cancel fails to append leaves its leg
  (`MultiSource.UndoLeavesNothingIff`); the handlers ignore both errors.
- A whole-job settle request on an array's token settles nothing and still drops the routing
  (`Routing.WholeSettleOfArrayDoesNothing`).

## Model

| member | source | states |
|---|---|---|
| `TokenBucket.Accrue` | internal/budget/burst.go:22-44 | accrual touches only pot, remainder and clock, and moves the clock to `now` exactly when burst is on |
| `TokenBucket.AccrueLaw` | internal/budget/burst.go:22-44 | for every bucket and instant, from the inputs alone: with time and pot in units of 1/T, (B0 - rLive*T)*dt is earned if positive; below the ceiling all of it is kept to the last unit, at the ceiling the pot is full and the remainder dropped; no other bucket meets this |
| `TokenBucket.AccrueSplits` | internal/budget/burst.go:22-44 | accruing to t1 and then t2 equals accruing to t2 at once, including runs that hit the ceiling |
| `TokenBucket.AccrueIsExact` | internal/budget/burst.go:19-44 | below the ceiling pot*T + remainder grows by exactly unused pace times elapsed time: banking never drifts |
| `TokenBucket.AccrueKeepsBounds` | internal/budget/burst.go:22-44 | an accrual from within bounds, or one that banks from anywhere, ends with 0 <= pot <= ceiling and remainder < T |
| `TokenBucket.ProjectionIsAccrual` | internal/budget/dispatch.go:81-105 | the side-effect-free projection of the pot equals the pot accrual would leave, for every clock |
| `TokenBucket.VerdictIgnoresStaleness` | internal/budget/dispatch.go:57-105 | a stale bucket and the same bucket fast-forwarded give the same dispatch verdict |
| `Kernel.Dispatch` | internal/budget/budget.go:199-218 | the burst gate moves the clock exactly when burst is on, never reserves a negative amount, changes no configuration, and fails only for draw cap, headroom or append |
| `Kernel.Release` | internal/budget/budget.go:230-268 | a settlement's bucket side moves the clock exactly when burst is on and changes no configuration |
| `Kernel.CallLogsItself` | internal/budget/durable.go:133-177 | a call logs at most one record, which is the call itself but for a submit's resolved rate |
| `Admission.SubmitAdmitsIff` | internal/budget/budget.go:148-181 | a submit is admitted if and only if the budget is active, in its window, does not know the id, covers c*w, passes the rate test at the reserved total plus c*w, and appends; it then moves exactly c*w and records its terms, else nothing |
| `Admission.FlatRate` | internal/budget/budget.go:148-152 | a submit without a positive rate is the submit at the budget's flat rate, for jobs and arrays |
| `Admission.SubmitArrayAdmitsIff` | internal/budget/array.go:57-100 | the same for an array of n > 0 tasks of walltime w > 0, all or nothing at c*w*n, every task unstarted and unsettled |
| `Admission.LapseIsFinal` | internal/budget/budget.go:340-352 | over every run, a lapsed budget stays lapsed and refuses every submit |
| `Admission.RepriceRefunds` | internal/budget/budget.go:431-456 | a reprice is accepted if and only if the job has not started, 0 < new rate <= old and it appends; the difference over the whole walltime returns to the balance |
| `Admission.TopUpWithdrawInverse` | internal/budget/budget.go:365-418 | a top-up and a withdrawal of one amount undo each other; a withdrawal is refused exactly beyond the balance |
| `Admission.RateAndWindowSet` | internal/budget/budget.go:464-501 | the flat rate and the window are replaced or refused, and nothing else moves |
| `Admission.BurstConfigured` | internal/budget/budget.go:521-565 | which burst settings are accepted; switching off forgets tokens and burn, switching on starts the clock, a change banks first under the old terms, and the pot is cut to the new ceiling |
| `Billing.JobBills` | internal/budget/budget.go:229-336 | settling a live job ends it and takes c*w out of the reserved total: a completion consumes c times the clamped runtime, a timeout c*w, a cancel c times the clamped elapsed time if it started and 0 if not, an infrastructure failure c times the clamped elapsed time, consumed or written off by policy; the rest returns |
| `Billing.JobRefusals` | internal/budget/budget.go:229-336 | an unknown id and a failed append change nothing and log nothing |
| `Billing.TaskBills` | internal/budget/array.go:153-280 | the same for one open task of an array out of its slice c*w; the other tasks are untouched and the array goes with its last open task |
| `Billing.TaskRefusals` | internal/budget/array.go:153-280 | settling anything but an open task moves no money; whether it is logged all the same, and with which error it fails, by kind of call |
| `Billing.CompletingBillsTheSum` | internal/budget/array.go:153-230 | completing any number of open tasks in any order consumes c times the sum of their clamped runtimes and returns the rest of their slices; the array is gone exactly when none is left |
| `Pacing.LastArriverPays` | internal/budget/burst.go:48-60 | with r0 the floor of B0/T, an arrival reserves w times the rise of max(burn, r0) |
| `Pacing.ArrivalsAddUp` | internal/budget/burst.go:48-60 | so one that stays within r0 reserves 0, one from r0 or above reserves c*w, and splitting an arrival in two changes nothing |
| `Pacing.GateCharges` | internal/budget/budget.go:199-224 | with burst on the gate opens if and only if that reservation fits the draw cap and the pot as accrued, and the append goes through; the pot falls and the burn rises by exactly that |
| `Pacing.StartCharges` | internal/budget/budget.go:186-225 | starting a job that waits: dispatched by that gate, or by its append alone with burst off; the job then holds the reservation, and nothing else moves |
| `Pacing.StartTaskCharges` | internal/budget/array.go:105-149 | the same for an array task |
| `Pacing.StartRefusals` | internal/budget/budget.go:186-198 | starting what has started, has settled or is unknown changes nothing, with the error each time |
| `Pacing.StartsAddUp` | internal/budget/budget.go:186-225 | over any sequence of accepted starts of one walltime w: the jobs together hold w*(max(final burn, r0) - max(initial burn, r0)), and the pot has paid exactly that |
| `Pacing.JobReleases` | internal/budget/budget.go:230-268 | ending a job accrues with it still burning, then stops its burn and returns resv*(w - r)/w tokens rounded down, up to the ceiling, r being the seconds billed; nothing returns for work that never started |
| `Pacing.TaskReleases` | internal/budget/array.go:153-203 | the same for a task |
| `Pacing.StartCancelRestores` | internal/budget/budget.go:186-321 | a job started and cancelled at the same instant leaves money, tokens and burn as they were |
| `Budgets.Budget.SubmitAt` | internal/budget/budget.go:148-181 | the 1:1 gate runs exactly its transition: state, error, log and published view, on every path |
| `Budgets.Budget.Admit` | internal/budget/budget.go:123-170 | open, well-formed, solvent, within the rate ceiling, refused in that order |
| `Budgets.Budget.DispatchGate` | internal/budget/budget.go:199-224 | the gate both starts share: bucket, error, reservation and log are the transition's, a record being logged only on success |
| `Budgets.Budget.Accrue` | internal/budget/burst.go:22-44 | the in-place update equals the accrual function |
| `Budgets.Budget.BurstReserveForRate` | internal/budget/burst.go:48-60 | computes the reservation that `Pacing.LastArriverPays` and `Pacing.StartsAddUp` characterise |
| `Budgets.Budget.BurstBoundsOK` | internal/budget/burst.go:72-91 | answers exactly whether pot, burn, remainder and live reservations are in bounds |
| `Budgets.Budget.BurstSnapshot` | internal/budget/burst.go:63-68 | accrues, logs and publishes nothing, returns the accrued pot, ceiling and burn |
| `Budgets.Budget.Report` | internal/budget/status.go:40-45 | accrues without logging or publishing; conserved is reported exactly when the four parts sum to B0 |
| `Budgets.Budget.Start` | internal/budget/budget.go:186-225 | starting a job runs exactly its transition; publishes on every exit |
| `Budgets.Budget.ReleaseTokens` | internal/budget/budget.go:230-268 | the in-place bucket update equals the release function |
| `Budgets.Budget.SettleCore` | internal/budget/budget.go:229-274 | the refund core: new state is the settlement of that runtime and policy, and it is published |
| `Budgets.Budget.Complete` | internal/budget/budget.go:278-287 | completion runs exactly its transition; publishes only on success |
| `Budgets.Budget.Timeout` | internal/budget/budget.go:292-303 | a timeout bills the whole walltime; publishes only on success |
| `Budgets.Budget.Cancel` | internal/budget/budget.go:307-321 | a cancel bills the elapsed time, or nothing for a job that never started |
| `Budgets.Budget.InfraFail` | internal/budget/budget.go:325-336 | an infrastructure failure bills the user or writes off, by the policy flag |
| `Budgets.Budget.SubmitArrayAt` | internal/budget/array.go:57-100 | the all-or-nothing array gate runs exactly its transition, including the loop that fills the tasks |
| `Budgets.Budget.FreshTasks` | internal/budget/array.go:91-97 | the loop fills n unstarted, unsettled tasks |
| `Budgets.Budget.StartTask` | internal/budget/array.go:105-149 | starting a task runs exactly its transition |
| `Budgets.Budget.SettleTaskCore` | internal/budget/array.go:153-220 | the per-task refund core: state and error are the transition's; publishes only on success |
| `Budgets.Budget.CloseTask` | internal/budget/array.go:204-219 | marks the task, checks the array's books, drops a drained array |
| `Budgets.Budget.CompleteTask` | internal/budget/array.go:224-230 | logs before validating, then settles the task; what it is billed is `Billing.TaskBills` |
| `Budgets.Budget.TimeoutTask` | internal/budget/array.go:234-244 | the same with the whole walltime, after checking the array exists |
| `Budgets.Budget.CancelTask` | internal/budget/array.go:249-266 | the same with the elapsed time, or 0 for a task that never started |
| `Budgets.Budget.InfraFailTask` | internal/budget/array.go:271-280 | the same, billed or written off by policy |
| `Budgets.Budget.Lapse` | internal/budget/budget.go:340-352 | closes whether or not the append succeeds, and publishes nothing |
| `Budgets.Budget.TopUpXfer` | internal/budget/budget.go:365-385 | a top-up runs exactly its transition: balance and allocation rise together, nothing else moves |
| `Budgets.Budget.WithdrawXfer` | internal/budget/budget.go:399-418 | a withdrawal runs exactly its transition, refused beyond the balance |
| `Budgets.Budget.Reprice` | internal/budget/budget.go:431-456 | lowers the rate of an unstarted job and refunds the difference; refuses anything else |
| `Budgets.Budget.SetRate` | internal/budget/budget.go:464-477 | sets the flat rate only |
| `Budgets.Budget.SetWindow` | internal/budget/budget.go:485-501 | sets the window only; the bucket is not touched |
| `Budgets.Budget.SetBurst` | internal/budget/budget.go:521-565 | validates, logs, then reconfigures the bucket as its transition says |
| `Budgets.Budget.ConfigureBucket` | internal/budget/budget.go:540-563 | disabling zeroes the bucket, enabling anchors the clock, a lowered ceiling clamps |
| `Budgets.Budget.LogCmd` | internal/budget/durable.go:12-17 | appends one record, or none when replaying, in memory, or failing |
| `Budgets.Budget.Publish` | internal/budget/readview.go:47-54 | the published view is the current one |
| `Budgets.Budget.ApplyCommand` | internal/budget/durable.go:133-177 | replaying a record runs the live call with the same arguments and logs nothing |
| `Books.NewBalanced` | internal/budget/budget.go:109-121 | a new budget balances |
| `Books.SubmitKeepsMoneyIff` | internal/budget/budget.go:148-181 | a submit keeps the money conserved, with no negative reservation, and does not raise the balance, if and only if it is refused or its cost c*w is not negative |
| `Books.SubmitKeepsBooksIff` | internal/budget/budget.go:148-181 | with a walltime of at least 0, or refused, a submit also keeps every escrow well-formed, and no submit panics |
| `Books.NegativeWalltimeMintsBalance` | internal/budget/budget.go:148-181 | a concrete negative walltime is accepted and breaks the books |
| `Books.SettleKeepsBooks` | internal/budget/budget.go:229-274 | a settlement splits the reservation into 0 <= used <= reserved and a refund, and nothing is created or lost |
| `Books.SettleTaskKeepsBooks` | internal/budget/array.go:153-220 | a task settlement keeps the books, never panics, changes nothing when refused, and closes the array exactly with its last unsettled task |
| `Books.CallKeepsBooks` | internal/budget/budget.go:148-565 | every method call keeps the books and never panics, whether or not its append succeeds |
| `Books.ExecKeepsBooks` | internal/budget/budget.go:583-593 | the same for accruing reads |
| `Books.RestNonNeg` | internal/budget/array.go:293-306 | in balanced books every reservation is covered by the reserved total |
| `Books.RunKeepsBooks` | internal/budget/budget.go:583-593 | over every run B0 = B + ReservedTotal + Consumed + WriteOff, all parts non-negative, ReservedTotal the sum over live work, each reservation exactly what its terms say, Remaining the count of unsettled tasks |
| `Burn.DispatchBurn` | internal/budget/budget.go:199-224 | a start raises the burn by its rate when it succeeds, and also when its append fails on the path without a reservation |
| `Burn.RunBurn` | internal/budget/budget.go:186-274 | with burst toggled at will, rLive is 0 while off and within the summed rates of started work; exact if never switched off |
| `Burn.DrainedMeansIdle` | internal/budget/array.go:105-220 | once no started work is left, rLive is 0 |
| `Burn.FailedAppendLeaksBurn` | internal/budget/budget.go:218-224 | with a failing append the burn stays exact if and only if the start needed a reservation or its rate is 0 |
| `Burn.FailedTaskAppendLeaksBurn` | internal/budget/array.go:141-145 | the same for an array task |
| `Tokens.ReservationCovered` | internal/budget/burst.go:48-60 | a burst reservation is at most the job's money reservation |
| `Tokens.WithdrawAndWindowBounds` | internal/budget/budget.go:399-501 | exactly when a withdrawal or a window change leaves the bucket in bounds |
| `Tokens.WithdrawalLeavesBounds` | internal/budget/budget.go:399-418 | a concrete withdrawal leaves a full pot above its lowered ceiling |
| `Tokens.ExecTokens` | internal/budget/burst.go:72-91 | every other transition keeps 0 <= pot <= ceiling and 0 <= remainder < T |
| `Tokens.RunTokens` | internal/budget/burst.go:72-91 | over every run the bounds hold without those two calls, and after them the first accrual that banks restores both |
| `Tokens.BurnBelowAllocation` | internal/budget/burst.go:19-60 | rLive <= ReservedTotal <= B0 when funded walltimes are at least 1 |
| `Tokens.ArrivalBelowAllocation` | internal/budget/budget.go:199-218 | the burn with one more job admitted still fits the allocation |
| `Tokens.TaskArrivalBelowAllocation` | internal/budget/array.go:119-145 | the same for an array task |
| `Int64.AccrueFitsIff` | internal/budget/burst.go:22-44 | under B0*max(T,dt)+T < 2^63, banking or not, every product and sum of accrual is in int64 if and only if rLive*T is, the banked deposit with its remainder is, and the pot with the deposit is |
| `Int64.ReserveFitsIff` | internal/budget/burst.go:48-60 | every product and sum of a reservation is in int64 if and only if the burn with the arrival is |
| `Int64.RefundFitsIff` | internal/budget/budget.go:257-268 | under the size bound the token refund of a covered reservation is in int64 if and only if the pot with it is |
| `Int64.CreationsAreCreated` | internal/budget/durable.go:44-66 | both kinds of creation, with burst configured or not, start where the run theorems start |
| `Int64.RunStaysInInt64Iff` | internal/budget/burst.go:22-60 | after every run from creation, whatever the windows, whatever appends fail and whatever is withdrawn or reconfigured, accrual, reservations and refunds under the size bound are in int64 exactly under those conditions |
| `Int64.TameRunStaysInInt64` | internal/budget/burst.go:22-60 | where appends succeed, funded walltimes are at least 1, the window is not changed and is at least two seconds, and B0*T+T stays below 2^63, withdrawals included, everything under the size bound is in int64 |
| `Int64.RunPassesBurstCheck` | internal/budget/burst.go:70-91 | from creation, without a withdrawal or a window change, the budget's own burst check passes after every run |
| `Int64.OneSecondWindowOverflows` | internal/budget/burst.go:30-38 | a one-second window overflows under the same size bound |
| `Int64.ShrunkWindowOverflows` | internal/budget/budget.go:485-501 | a window change that keeps a larger remainder takes the bucket out of its bounds and makes the next deposit overflow at a clock that fits, every state being within the size bound |
| `Int64.LeakedBurnOverflows` | internal/budget/budget.go:218-222 | one failed start append followed by two starts that the allocation covers brings rLive*T out of int64 within the size bound |
| `ReadView.SilentCallsChangeNothing` | internal/budget/readview.go:10-54 | a call that publishes nothing changed nothing that the view shows |
| `ReadView.VerdictIsGate` | internal/budget/dispatch.go:57-80 | the verdict, its reason and its reservation are those of the gate Start runs |
| `Pacing.VerdictReports` | internal/budget/dispatch.go:57-125 | the verdict reports the pot as accrual would leave it and the last-arriver-pays reservation, and dispatches exactly when that fits |
| `ReadView.ReadAgreesIff` | internal/budget/status.go:40-45 | after an accruing read the lock-free and the locked answers stay equal if and only if the read does not precede the bucket's clock, or the burn leaves nothing to bank, or the view projects a full pot at it |
| `ReadView.LockFreeAgreesIff` | internal/budget/dispatch.go:132-151 | over every run, the lock-free answer equals the locked projection's at every moment, for every rate, walltime and clock not before the bucket's, if and only if every read was harmless in that sense |
| `ReadView.AgreementIsStart` | internal/budget/budget.go:199-218 | where they agree, the lock-free query dispatches exactly the escrows that Start would accept |
| `ReadView.BackwardReadMisleads` | internal/budget/status.go:40-45 | with burst on at creation, a read before the window opens makes the view hold a job that the locked gate would start |
| `ReadView.ExampleIsACreation` | internal/budget/durable.go:44-58 | the bucket of that example is what a creation with burst on leaves |
| `ReadView.StartObeysVerdict` | internal/budget/budget.go:199-218 | an unstarted escrow starts if and only if the verdict for its rate and walltime is to dispatch |
| `ReadView.SimulateIsSubmitThenStart` | internal/budget/simulate.go:21-78 | the dry run admits if and only if a fresh submit and an immediate start both succeed, and its denials name the real errors |
| `ReadView.RunwayLaw` | internal/budget/simulate.go:32-36 | the runway reported is the largest whole number of seconds the balance lasts at the flat rate, or -1 without one |
| `LogFormat.SoundCodecExists` | internal/budget/wal.go:138-150 | the assumption on the codec can be met: for every log of up to 2^32 commands some codec frames all of it |
| `LogFormat.Append` | internal/budget/wal.go:138-178 | an append adds exactly one record, or nothing when it fails or the payload is too large, so a log built by appends is one the codec frames |
| `LogFormat.Uint32RoundTrip` | internal/budget/wal.go:146-160 | the little-endian header word reads back |
| `LogFormat.FrameIff` | internal/budget/wal.go:265-307 | on any file, damaged or not: a record is read at an offset if and only if its length, checksum and decodable payload stand there whole |
| `LogFormat.ScanIff` | internal/budget/wal.go:265-307 | so a scan of any file reads exactly the chain of intact records from the offset up to the first place where none is |
| `LogFormat.FitIsLargest` | internal/budget/wal.go:265-307 | Fit is the largest number of records whose encodings fit whole |
| `LogFormat.PrefixScans` | internal/budget/wal.go:265-307 | reading any byte prefix from a record boundary returns exactly the commands that fit whole, and the offset where they end |
| `LogFormat.BoundaryScans` | internal/budget/wal.go:138-166 | an undamaged log reads back in full from any record boundary |
| `GroupCommit.StepOK` | internal/budget/wal.go:138-241 | every action of appenders, committer, Flush and Close callers keeps the invariant, and neither syncedOff nor durability goes back |
| `GroupCommit.GroupCommitIsSafe` | internal/budget/wal.go:138-261 | in every interleaving syncedOff is covered by completed fsyncs, unsynced bytes have someone on the way while the committer has not stopped, success means everything written before the call is synced, no waiter is left waiting |
| `GroupCommit.NothingStranded` | internal/budget/wal.go:184-225 | from every reachable state the threads already at work sync everything written, unless an fsync fails |
| `GroupCommit.OnlyFsyncsFail` | internal/budget/wal.go:138-222 | in every interleaving in which no fsync fails, no error sticks and every append has written its bytes |
| `GroupCommit.FlushCompletes` | internal/budget/wal.go:227-244 | from every reachable state without an error, a Flush whose fsync succeeds returns success with everything written durable |
| `GroupCommit.CloseCompletes` | internal/budget/wal.go:246-258 | the same for Close once the committer is between passes, which it stops |
| `Recovery.ReplayMatchesIff` | internal/budget/durable.go:71-177 | for every safe run from any matching pair: the log replays to its end if and only if no task settlement was logged and refused, and then the recovered budget matches the live one |
| `Recovery.RecoveryMatchesLive` | internal/budget/durable.go:71-177 | the same from the run's own start: same money, escrows and arrays, the live bucket being the recovered one fast-forwarded |
| `Recovery.MatchesConverge` | internal/budget/burst.go:22-68 | any later accrual makes the live and recovered buckets equal |
| `Recovery.PlainReplayIsExact` | internal/budget/array.go:153-286 | with burst off, replay reaches the end with exactly the live state if and only if no task settlement was logged and refused |
| `Recovery.SnapshotRecovers` | internal/budget/durable.go:71-116 | a snapshot plus the log after it recovers the same budget as the whole log |
| `Recovery.MatchesAgree` | internal/budget/durable.go:71-116 | two budgets recovered from the same run differ at most in how far their buckets have been fast-forwarded |
| `Recovery.RetermMatchesIff` | internal/budget/budget.go:365-418 | a top-up or withdrawal after unlogged accrual keeps the bucket recoverable exactly when: short of the ceilings, no unlogged time is outstanding or nothing banks before and after; at them, the ceilings are equal or the one bucket stops exactly at the other's |
| `Recovery.WindowMatchesIff` | internal/budget/budget.go:485-501 | the same for a window change, short of the ceilings: the length is unchanged, no unlogged time is outstanding, nothing banks before and after, or an idle bucket has not banked a whole token; both ceilings reached, always |
| `Recovery.BackwardReadRecoversIff` | internal/budget/burst.go:22-29 | after a read before the live bucket's clock, live and recovered buckets accrue alike from then on if and only if nothing banks or the recovered bucket is full by then |
| `Recovery.WindowAfterReportDiverges` | internal/budget/budget.go:485-501 | an unlogged accrual before a window change makes the replayed pot differ |
| `Recovery.TopUpAfterReportDiverges` | internal/budget/budget.go:365-385 | an unlogged accrual before a top-up makes the replayed pot differ |
| `Recovery.ReportBeforeWindowDiverges` | internal/budget/status.go:40-45 | a read before the window opens makes the live pot run ahead of the replayed one |
| `Recovery.RefusedSettlementPoisonsLog` | internal/budget/array.go:224-230 | one settlement of an unknown array makes the log unreplayable |
| `Durable.CaptureSnapshot` | internal/budget/snapshot.go:72-93 | whatever order the maps are walked in, the snapshot rebuilds to the budget captured |
| `Durable.CaptureTasks` | internal/budget/snapshot.go:84-91 | tasks listed in any order rebuild to the same array |
| `Durable.NewDurableBurst` | internal/budget/durable.go:44-66 | a fresh durable budget, with burst or without; its first snapshot rebuilds to it and covers no log |
| `Durable.BudgetFromSnapshot` | internal/budget/snapshot.go:96-119 | rebuilds the state the snapshot stands for and seeds the read view |
| `Durable.RebuildTasks` | internal/budget/snapshot.go:111-116 | the loop places each listed task at its index, the last record winning |
| `Durable.ReplayWAL` | internal/budget/wal.go:265-307 | applies every intact record past the offset; fails exactly when the value-level replay fails; returns the end of the last good record |
| `Durable.ConservationOKArrays` | internal/budget/array.go:293-306 | answers exactly whether the ledger and every array's slices add up |
| `Durable.OpenBudget` | internal/budget/durable.go:71-103 | returns the replayed budget, durable and not replaying, exactly when replay reaches the end and conservation holds; whatever the files hold, B + reserved + consumed + written off is B0 and every array reserves its remaining slices |
| `Durable.HasXfer` | internal/budget/auditlog.go:92-104 | finds a tagged leg exactly when the readable log holds one |
| `Durable.UptoIsPrefix` | internal/budget/durable.go:12-17 | every prefix of a run's log is the whole log of a prefix of the run |
| `Durable.MatchIsConserved` | internal/budget/durable.go:91-94 | what matches balanced books passes the conservation check |
| `Durable.CrashLosesOnlyASuffix` | internal/budget/durable.go:71-116 | after a crash that keeps any byte prefix down to the snapshot's offset, recovery succeeds and matches the live budget as it stood at one moment after the snapshot, determined by the whole records kept |
| `Transfer.CallLogsAllocation` | internal/budget/budget.go:365-418 | a call moves the allocation by exactly what it logs |
| `Transfer.ReplayAllocation` | internal/budget/durable.go:133-177 | a replayed budget's allocation is its creation amount plus what its log says |
| `Transfer.OracleIsRight` | internal/daemon/transfer.go:228-258 | what recovery reads from the two logs is exactly which legs were applied |
| `Transfer.StepKeeps` | internal/daemon/transfer.go:116-258 | every step, crash and recovery step keeps the invariant and the total worth |
| `Transfer.KernelRuns` | internal/daemon/transfer.go:116-177 | any untagged call runs on its account and touches nothing else; the admin total moves with that account's allocation |
| `Transfer.CrashRebuilds` | internal/daemon/transfer.go:184-258 | a crash keeps the journal and the logs and ends every thread; an account whose run was safe comes back matching the live one |
| `Transfer.RunKeeps` | internal/daemon/transfer.go:116-258 | the same over every interleaving |
| `Transfer.TransfersConserve` | internal/daemon/transfer.go:116-258 | from creation: allocations plus money in flight are constant but for admin movements, each leg is in the log of the one account that owes it exactly once if applied and in no other log, and an empty journal means nothing in flight |
| `Registries.TransferMoves` | internal/daemon/transfer.go:116-177 | one transfer: the source pays when it can, the target receives when its append succeeds, no other account moves, the journal keeps the record exactly while money is in flight |
| `Registries.OracleReadsTheFile` | internal/budget/auditlog.go:92-104 | scanning an account's encoded log finds a leg exactly when the log's records hold one |
| `Registries.Registry.MoveMoney` | internal/daemon/transfer.go:153-176 | journal, withdraw, deposit, drop: exactly the four steps, with the result of the leg that failed |
| `Registries.Registry.Transfer` | internal/daemon/transfer.go:116-177 | each refusal in order and with nothing changed, else the four steps; the invariant and total worth are kept |
| `Registries.Registry.CompleteTransfer` | internal/daemon/transfer.go:228-258 | deposits exactly when the logs show the withdrawal alone; afterwards both legs or neither are logged |
| `Registries.Registry.RecoverTransfers` | internal/daemon/transfer.go:184-213 | fails if and only if the deposit of some record whose money is in flight does not append; otherwise the journal ends empty, every withdrawn transfer has landed, none was withdrawn again, nothing is in flight |
| `Funding.FundingPlan` | internal/daemon/funding.go:42-63 | fundable if and only if the summed capacities reach the need; the plan drains each earlier source to its whole-second capacity |
| `Funding.PlanUnique` | internal/daemon/funding.go:33-63 | that plan is the only one with this property |
| `Funding.CapacityLaw` | internal/daemon/funding.go:46-49 | a source's capacity is the largest number of whole units its balance pays for, 0 if it is overdrawn |
| `Funding.PlanFunds` | internal/daemon/funding.go:42-63 | source by source: a full plan has a leg on source j if and only if min(capacity_j, need - capacities before j) is positive, and the leg takes exactly that |
| `Funding.ComputeLegRuntime` | internal/daemon/funding.go:70-86 | the loop computes the share of the runtime that falls in the leg's slice |
| `Funding.RuntimeSplitsExactly` | internal/daemon/funding.go:65-86 | the shares add up to clamp(runtime, 0, W) |
| `MultiSource.PlaceHolds` | internal/daemon/server.go:352-365 | placing a leg adds exactly its reservation to its budget |
| `MultiSource.CancelTasksUndoes` | internal/daemon/server.go:448-455 | cancelling every task of a placed array leg gives back its reservation and removes it |
| `MultiSource.UndoLeavesNothingIff` | internal/daemon/server.go:356-362 | a roll-back leaves nothing of a placed leg if and only if every append it makes for it goes through |
| `MultiSource.UndoHolds` | internal/daemon/server.go:356-362 | undoing the first of several placed legs leaves exactly the others |
| `Server.Server.RollBack` | internal/daemon/server.go:356-362 | the roll-back loop cancels each placed leg in order, whatever its appends do |
| `Server.UndoTakesAllBack` | internal/daemon/server.go:356-362 | when the appends it makes go through, no budget holds anything of the placed legs any more |
| `Server.FailedUndoLeavesLeg` | internal/daemon/server.go:356-362 | when one of them fails, a leg is left in its budget at the end of the roll-back |
| `Server.UndoRestoresIff` | internal/daemon/server.go:356-362 | so a roll-back restores every budget if and only if each append it makes goes through |
| `Server.Server.PlaceLegs` | internal/daemon/server.go:352-370 | places one leg for each slice of the plan, on the source the slice names, until a source refuses; all planned legs are placed, or the roll-back restores every budget exactly when its appends go through |
| `Server.Server.GateMultiSource` | internal/daemon/server.go:328-464 | over distinct sources admits exactly when the need is fundable and each source would take its slice by itself, so over open sources without a rate ceiling exactly when the capacities reach the need; each source j then pays unit*min(capacity_j, max(0, need - capacities before j)), on a leg of its own, as time slices that add up to w or array legs that partition the tasks; rejecting leaves all totals and live work as before, even with a source named twice, if and only if each append of its roll-back goes through; books stay balanced |
| `Server.AdmitsByPlan` | internal/daemon/server.go:328-464 | admission is decided by the one greedy plan |
| `Server.AdmitsIffAllTake` | internal/daemon/server.go:343-370 | over distinct sources placing legs one after the other admits exactly when each slice's source takes it in the state it was in before |
| `Server.ReadyAdmits` | internal/daemon/server.go:343-370 | over distinct open sources without a rate ceiling, with the appends going through, a fundable request is admitted |
| `Server.HeldBySource` | internal/daemon/server.go:343-370 | what the legs hold in source j is unit*min(capacity_j, max(0, need - capacities before j)) |
| `Server.LegsPaid` | internal/daemon/server.go:343-370 | so each source's balance has fallen by exactly that |
| `Server.LegsCost` | internal/daemon/server.go:352-370 | the legs' reservations add up to the unit cost times the units planned |
| `Server.LegsPartitionTasks` | internal/daemon/server.go:440-476 | each index 0..N-1 belongs to exactly one array leg, and no other index to any |
| `Server.LegForTask` | internal/daemon/server.go:469-476 | finds the first leg that owns the index, with its local index below the leg's task count, and fails exactly when none does, as for a job's time slices |
| `Server.Server.BindMultiSource` | internal/daemon/server.go:648-693 | each budget runs a reprice of each of its own legs if there is a rate to offer, then a start of each, in leg order with their own append outcomes, and nothing else |
| `Server.BindFansOut` | internal/daemon/server.go:668-692 | the two leg loops, seen from each budget |
| `Starting.BindStartsIff` | internal/daemon/server.go:668-692 | after a bind a leg is live at the rate its reprice left it at, and started if and only if its own start was accepted: its append went through and the verdict on its budget as it then stood dispatches it; with burst off, exactly when its append went through |
| `Starting.BindStartsAll` | internal/daemon/server.go:682-692 | with burst off and the starts appended, every leg is started |
| `Server.Server.BindArrayTask` | internal/daemon/server.go:656-666 | starts the task on the leg that owns it; an index that no leg owns, as any on a job's token, is rejected and changes nothing |
| `Server.Server.SettleMultiSource` | internal/daemon/server.go:699-744 | each budget settles its own legs, each with its share and its own append outcome, and nothing else; the error reported is that of the first leg whose token is unknown or whose append fails; the routing goes regardless |
| `Server.ReportsFirst` | internal/daemon/server.go:711-729 | a fan-out settles every leg and reports the first error there is |
| `Server.SettleFansOut` | internal/daemon/server.go:711-729 | the settle loop, seen from each budget |
| `Starting.SettleEndsIff` | internal/daemon/server.go:711-729 | after a settle a leg is gone if and only if its append went through, and otherwise unchanged |
| `Server.Server.SettleMultiSourceArrayTask` | internal/daemon/server.go:750-786 | settles the task on the leg that owns it, rejecting an index that none owns; an open task is charged by the kind of the request; the counter falls by one exactly on success and the routing goes with the last |
| `Server.TaskRequestBills` | internal/daemon/server.go:756-768 | a complete request is charged c times the clamped runtime, a timeout the slice, a cancel the clamped elapsed time if the task started, an infrastructure failure the same or a write-off by policy |
| `Binding.AdmittedLegsAreLive` | internal/daemon/server.go:328-372 | the legs the gate exports for an admitted job are live, unstarted and at one rate in their budgets |
| `Binding.OneRateIff` | internal/daemon/server.go:668-680 | after a bind's reprices all legs share one rate if and only if the offer changes nothing, all its appends went through, or none did |
| `Binding.BindKeepsOneRate` | internal/daemon/server.go:668-692 | with its reprices appended, a bind leaves all legs at one rate, whichever of them can start, and spends nothing |
| `Binding.AdmittedJobBillsExactlyIff` | internal/daemon/server.go:328-744 | from admission to settlement: a job of walltime w completed, infra-failed or cancelled is charged the bound rate times clamp(runtime, 0, w) over all its budgets if and only if that rate is 0 or no leg whose append failed, and no leg cancelled unstarted, has a share of the runtime |
| `Binding.AdmittedJobBillsExactly` | internal/daemon/server.go:328-744 | in particular a completion or infra failure whose appends go through is charged exactly that |
| `Starting.CancelledJobBillsExactly` | internal/daemon/server.go:328-744 | with burst off and the appends going through, a bound job that is cancelled is charged exactly the bound rate times clamp(elapsed, 0, w) |
| `Starting.TimedOutJobBillsAll` | internal/daemon/server.go:328-744 | a job that times out is charged the bound rate times w, whichever legs could start |
| `Starting.RunJob` | internal/daemon/server.go:328-744 | the gate, bind and settle handlers in sequence, for every kind of settlement: spending over all budgets rises by the bound rate times w for a timeout, times clamp(runtime, 0, w) otherwise (a cancel with burst off), by nothing when the gate rejects, and no routing is left |
| `Settlement.FanOutBills` | internal/daemon/server.go:699-744 | over all budgets, whichever appends fail, spending rises by c times the seconds billed, reservations fall by c times the seconds released, the rest returns as balance |
| `Settlement.CompletionBillsExactly` | internal/daemon/server.go:699-744 | completing or infra-failing live legs of one rate bills or writes off exactly c*clamp(runtime, 0, W) and refunds the rest |
| `Settlement.InfraFailWritesOff` | internal/daemon/server.go:699-744 | an infrastructure failure is charged to the users where failures are billed, and written off in full where they are not |
| `Settlement.FanOutWritesOff` | internal/daemon/server.go:699-744 | whichever appends fail, the write-offs rise by exactly what such a failure bills, and by nothing for any other kind |
| `Settlement.TimeoutBillsAll` | internal/daemon/server.go:699-744 | a timeout spends exactly the slices of the legs whose appends go through, started or not, all of c*W if all do |
| `Settlement.SettlementBillsExactlyIff` | internal/daemon/server.go:699-744 | a completion, infra failure or cancellation spends exactly c*clamp(runtime, 0, W) if and only if the rate is 0 or no leg whose append failed, and no leg cancelled unstarted, has a share of the runtime |
| `Routing.RemainingFalls` | internal/daemon/server.go:606-640 | no call but submitting an array moves its unsettled count, other than a successful task settlement, which lowers it by one |
| `Routing.RequestThenBookkeep` | internal/daemon/server.go:750-786 | a settle request runs its call on its leg's budget; if that goes through the counter falls by one and the routing goes with the last; any other call just runs |
| `Routing.RoutingOutlivesTasks` | internal/daemon/server.go:750-786 | in every interleaving with janitors and other work the counter is never below the unsettled tasks, so routing is dropped only when none remains |
| `Routing.GateStartsRouting` | internal/daemon/server.go:440-464 | the placed legs' unsettled tasks are exactly their task counts |
| `Routing.AdmittedArrayIsRouted` | internal/daemon/server.go:415-464 | an admitted array starts with its counter equal to its unsettled tasks, so every run of its requests keeps the routing while a task remains |
| `Routing.RoutingIsExact` | internal/daemon/server.go:750-786 | where only its requests settle an array's tasks, in every interleaving the counter is exactly the unsettled tasks plus the decrements to come |
| `Routing.AdmittedArrayIsRoutedExactly` | internal/daemon/server.go:415-786 | so an admitted array is routed exactly until its last task has been counted off |
| `Routing.WholeSettleOfArrayDoesNothing` | internal/daemon/server.go:699-744 | a whole-job settle of an array token changes no budget |
| `Janitor.SweepUnbound` | internal/budget/janitor.go:44-92 | an escrow stays, unchanged, if and only if it had started, or is younger than ttl, or its append failed; a task stays open if and only if its array is younger than ttl or some task of it started, or its append failed; every other array is unchanged; what ended returns to the balance in full |
| `Janitor.UnboundSweepLeaves` | internal/budget/janitor.go:44-92 | what an unbound sweep leaves, id by id and task by task |
| `Janitor.CollectUnboundTasks` | internal/budget/janitor.go:54-79 | the nested loops collect exactly those tasks, each once |
| `Janitor.SweepOrphans` | internal/budget/janitor.go:108-167 | an escrow stays, unchanged, if and only if it had not started, or is in the live set, or its append failed; a task stays open if and only if it had not started, or its array is in the live set, or its append failed; no live array changes; what ended returns to the balance or is consumed in full, by policy |
| `Janitor.OrphanSweepLeaves` | internal/budget/janitor.go:108-167 | what an orphan sweep leaves, id by id and task by task |
| `Janitor.CollectOrphanTasks` | internal/budget/janitor.go:127-137 | the nested loops collect exactly those tasks, each once |
| `Janitor.SettleJobs` | internal/budget/janitor.go:139-153 | settles exactly the collected jobs whose append goes through |
| `Janitor.SettleTasks` | internal/budget/janitor.go:154-166 | settles exactly the collected tasks whose append goes through, after the jobs |
| `Janitor.UnboundSweepDropsWholeArrays` | internal/budget/janitor.go:44-92 | the unbound sweep removes whole arrays, and the balance rises by exactly what the reserved total falls |
| `Janitor.SweepsLeaveOnlyUnowned` | internal/budget/janitor.go:94-108 | with everything aged and nothing live, the two sweeps leave no escrow, and open exactly the never-started tasks of arrays some task of which started |
| `Janitor.SweepsLeaveOnlyUnownedEitherOrder` | internal/budget/janitor.go:94-108 | the same with the sweeps in the other order |

## Left out

- Sockets, TCP authentication, peer credentials, access lists, identity lookup, the other server handlers: I/O and one-branch checks. The translation of live scheduler job ids into escrow keys before a sweep is one of them: the live set is a parameter.
- The command line, configuration, account metadata files, the Slurm seam, wire frames (framed as the log is), node and TRES rate lookup.
- Exact floating point: the ceiling percentage and the K rate test stay abstract, and a NaN percentage is not modelled.
- `AllowRequeue`, which no modelled method reads, `TimeToEmpty`, and the report's presentation fields.
- The burst fields of a budget (configuration, pot, remainder, burn, clock, with B0 and the window they are scaled by) are one record field of the class `Budget`, updated in place as a whole.
- The task map of an array is a sequence, since its keys are always 0..n-1 and never removed.
- Accounts in `Registry` and budgets in `Server` are values in a map, so two names for one budget object (aliasing) are not modelled; the source's own discipline is one lock at a time.
- A bucket whose window is empty: `New` is given ts < te and `SetWindow` refuses anything else, so the projection's guard against it has no counterpart.
- The rate check of `resolveSources`: the gate takes the one rate c that all legs use.
- Logs opened without synchronous mode, where no committer runs; `Close` is modelled as waiting for the committer and then flushing.
- Torn or failed writes followed by further appends, and a crash that loses log bytes a snapshot already covers.
- Daemon routing after a restart, which is in memory only; the single-account fallback in `Resolve`; randomness of token and transfer ids (fresh ids are unique).
- Recovery.ReplayMatchesIff: that the conditions of a safe run are needed is proved for one backward read, one change of the allocation and one change of the window (`Recovery.BackwardReadRecoversIff`, `Recovery.RetermMatchesIff`, `Recovery.WindowMatchesIff`), not for several that cancel each other out.
- A daemon some log of which does not replay never comes back: in `Transfer` a crash then is a no-op.
- `Transfer.CrashStep` rebuilds each account from its creation state and whole log; `Recovery.SnapshotRecovers` shows that a snapshot plus the rest of the log recovers the same budget.
