# Verified model of the embedded QEMU runtime and its VM lifecycle

This project models the concurrent runtime of the embedded QEMU core, the native code that starts and
stops a VM around it, and three byte-level functions of the tooling, and proves their main properties.
`dafny verify dfyconfig.toml` checks everything.

How the code is represented:

- Code in which several threads interleave is a labelled state machine. Each atomic access, lock
  operation, list-walk iteration or event operation is one step; `Enabled` says when it can happen and
  `Apply` what it does. A theorem about a run quantifies over every sequence of states in which each
  follows from the one before. Any number of threads take part. Fields marked as history influence no step.
- Code that changes objects in place is a class whose methods are proved against functions on values; the
  lemmas about those functions state what the code promises.
- Clocks, sockets, callbacks, the hash and the choices of other threads are parameters.

| module | what it models |
|---|---|
| `GracePeriod` | `synchronize_rcu`, `wait_for_readers`, registration, readers that may publish a stale counter value; the 64-bit increment form and the two-phase parity form |
| `CallQueue` | the call_rcu queue with its recycled dummy node, `call_rcu1`, the worker, `drain_call_rcu` |
| `CallDrain` | progress of that queue: every callback runs, with its own function; drains return; the worker never spins |
| `RcuRuntime` | the two side by side, joined at the worker's `synchronize_rcu` |
| `RcuProgress` | progress of the two together |
| `TimerSpec`, `TimerSet`, `TimerRun`, `TimerDeadline` | a timer list as a sequence, the set of armed timers it stands for, running it, and deadlines |
| `TimerList` | the linked list itself, updated in place, and the loops over it |
| `VirtualClock` | `qemu_clock_advance_virtual_time` over two linked lists, against a simulator that handles one event at a time |
| `VmLifecycle` | `vm_lifecycle.h`: the state of one run, its error text, the stop watchdog |
| `VmOwnership` | `StartVm`, `RequestVmStop`, the stop monitors and the runners: who owns each `std::thread` |
| `VmStop` | how an accepted stop comes to its end |
| `VmStart` | what a start, a stop request and a startup timeout achieve |
| `Microphone` | `microphone_session.h`: consent by generation |
| `RrWorker` | the round-robin vCPU worker, the kick protocol, the stop protocol |
| `RrTurns` | whose turn it is: the round-robin order, exit requests, sleeping and waking |
| `VcpuStorage` | thread and condition storage of the vCPUs, shared and freed |
| `TreeId` | the Git tree identities of the two source-verification scripts |
| `LoadImage` | the load image that identifies an ELF core |
| `QmpReply` | framing of QMP replies |
| `Prelude` | stock types and sequence facts |

## Where the code falls short of a plain reading

Each of these is a theorem with its exact condition, not an assumption:

- A reader that loaded the counter after k switches can outlive a grace period that begins after g if and only if
  the value it loaded collides with the counter in every phase of it (`GracePeriod.SurvivesIffCollides`): never in
  the two-phase form, and in the 64-bit form when g + 1 - k is a multiple of 2^63 (`GracePeriod.CollidesIffRounds`,
  `GracePeriod.WrappedCounterOverlooksReader`).
- A microphone generation is reused after 2^32 - 1 starts. A late call of an old session then acts on the new one
  under the conditions of `Microphone.LateRunningRevives` and `Microphone.LateEnableActs`, and under no others.
- The error text is the join of the distinct reasons if and only if no new reason is found inside the text of
  earlier ones (`VmLifecycle.ErrorIsJoinIffNoneHidden`); a reason with the separator in it can hide another
  (`VmLifecycle.SeparatorHidesReason`).
- A VM that exits without a stop in progress is never reaped, and no VM can be started afterwards
  (`VmOwnership.NaturalExitBlocksRestart`). Such a run exists (`VmOwnership.NaturalExitHappens`). It comes about by
  a completion without a stop owner, or by giving up the stop of a completed run, and by nothing else
  (`VmOwnership.UnreapedArisesIff`); a start that no active or stopping VM refuses is refused for the thread map
  if and only if there is such a run (`VmOwnership.RefusedIffUnreaped`).
- Whether a QMP reply is accepted depends on how the stream is received if and only if the unsplit stream is
  accepted and the longest line up to the deciding one has 16384 to 17406 bytes (`QmpReply.DependsOnSplitIff`,
  `QmpReply.LongGreetingDepends`); a longer line there is never accepted (`QmpReply.AcceptedLinesFit`).
- Finalising a vCPU leaves freed storage in use if and only if it still shares the worker's storage
  (`VcpuStorage.FinalizeSafeIffDetached`), as after Init and Start (`VcpuStorage.EarlyFinalizeDangles`); the sources
  avoid it by stopping first.
- The two tree-identity scripts give the same result if and only if there is no nested `.git` and no CR LF text in
  one of four files, or both reject the tree (`TreeId.IdsAgreeIffPlain`, `TreeId.NestedGitTellsApart`).

## Model

| member | source | states |
|---|---|---|
| GracePeriod.GracePeriodSafe | ports/qemu-11.1/overlay/util/rcu.c:79-204 | in every run, when `synchronize_rcu` returns no reader that was inside a critical section at the call is still inside that one, stale published values included; no bound for the two-phase form, fewer than 2^63 switches since that reader loaded the counter for the increment form |
| GracePeriod.SurvivorCollides | ports/qemu-11.1/overlay/util/rcu.c:61-67 | a reader can survive a grace period only if the value it published collides with the counter in every phase of the grace period that returns; it then equals the counter at the return |
| GracePeriod.SurvivesIffCollides | ports/qemu-11.1/overlay/util/rcu.c:61-204 | for every width, k and g: some run has a reader that loaded the counter after k switches survive a grace period that begins after g, if and only if k <= g and its value collides with the counter in every phase |
| GracePeriod.CollidesIffRounds | ports/qemu-11.1/overlay/util/rcu.c:187-200 | a collision means whole rounds of 2^63 switches in the increment form, and is impossible in the two-phase form |
| GracePeriod.WrappedCounterOverlooksReader | ports/qemu-11.1/overlay/util/rcu.c:197-203 | the first such case: 2^63 - 1 switches between a load and its publication, and the next grace period ends although the reader is inside throughout |
| GracePeriod.RegistryConserved | ports/qemu-11.1/overlay/util/rcu.c:118-171 | only registering and unregistering change who is registered; the walk and the final swap conserve the readers |
| GracePeriod.StepKeepsInv | ports/qemu-11.1/overlay/util/rcu.c:146-171 | every step keeps each registered reader on exactly one of registry and qsreaders, and qsreaders empty outside a grace period; that it goes on is GracePeriodCompletes |
| GracePeriod.NextCtrIsCode | ports/qemu-11.1/overlay/util/rcu.c:187-200 | a counter switch takes the closed form for k switches to the one for k + 1, wrap-around included, in both widths |
| GracePeriod.ProgressMonotone | ports/qemu-11.1/overlay/util/rcu.c:396-409 | over a run, a reader's progress through its critical sections never goes back |
| GracePeriod.GracePeriodCompletes | ports/qemu-11.1/overlay/util/rcu.c:173-205 | in both forms, every run in which a call is going on extends to one in which that very call is about to return, by nothing but steps of its own and of readers that leave |
| GracePeriod.PhaseEnds | ports/qemu-11.1/overlay/util/rcu.c:86-171 | when no registered reader is in a section that began before the current phase, the holder finishes the phase by itself, within as many steps as the registry has readers and four more |
| GracePeriod.WaiterReturns | ports/qemu-11.1/overlay/util/rcu.c:173-205 | every waiting caller can be brought through a grace period of its own and out |
| GracePeriod.ReadersNeverWait | ports/qemu-11.1/overlay/util/rcu.c:61-67 | wherever a grace period is, a registered reader gets in by two steps of its own, with the current counter value, and out by one |
| GracePeriod.NobodyRegistered | ports/qemu-11.1/overlay/util/rcu.c:173-204 | with nobody registered the call returns at once and the counter is not switched |
| GracePeriod.ThreadsComeAndGo | ports/qemu-11.1/overlay/util/rcu.c:396-421 | while a grace period waits between its passes, a thread can register, and unregistering undoes just that |
| CallQueue.DequeuesInExchangeOrder | ports/qemu-11.1/overlay/util/rcu.c:213-279 | what has been dequeued is at every moment a prefix of the nodes in the order of their tail exchanges, never the dummy |
| CallQueue.NullMeansEmptyOrInFlight | ports/qemu-11.1/overlay/util/rcu.c:244-251 | NULL is read only when everything enqueued has come out or the producer of the next node is between exchange and link store |
| CallQueue.AbortUnreachable | ports/qemu-11.1/overlay/util/rcu.c:253-262 | a head with a successor excludes the empty list, so `abort()` is not reached |
| CallQueue.RetryAtMostOnce | ports/qemu-11.1/overlay/util/rcu.c:270-278 | after one retry the next dequeued node is not the dummy; the aborted state is unreachable |
| CallQueue.ReturnedNodeUnreferenced | ports/qemu-11.1/overlay/util/rcu.c:264-278 | a returned node is not the head, not the tail, not linked from the list and not named by any producer about to link |
| CallQueue.NoLostWakeup | ports/qemu-11.1/overlay/util/rcu.c:294-321 | if the worker waits on the unset event while work is counted or owed, some producer is before its event set and can step |
| CallQueue.DrainIsSound | ports/qemu-11.1/overlay/util/rcu.c:345-388 | `drain_call_rcu` returns only after its own callback and all callbacks exchanged before it have finished |
| CallQueue.BatchOrigin | ports/qemu-11.1/overlay/util/rcu.c:287-325 | every batch goes back to one counter reading and one grace period, and all it dequeues was exchanged before that reading |
| CallQueue.StepKeepsInv | ports/qemu-11.1/overlay/util/rcu.c:209-388 | every step keeps list shape, order, counting, wake-up and drain invariants |
| CallQueue.LogsGrow | ports/qemu-11.1/overlay/util/rcu.c:213-279 | the orders of exchange and of dequeue are only ever extended |
| CallDrain.EverythingRuns | ports/qemu-11.1/overlay/util/rcu.c:281-337 | every run extends to one in which everything enqueued has been dequeued and has run, and every call of `call_rcu1` and `drain_call_rcu` has returned |
| CallDrain.DrainReturnsIff | ports/qemu-11.1/overlay/util/rcu.c:345-388 | `drain_call_rcu` may return exactly when its own callback has finished |
| CallDrain.RunsItsFunction | ports/qemu-11.1/overlay/util/rcu.c:331-337 | the node of an exchange is called with the function it was enqueued with, however nodes are reused |
| CallDrain.WorkerRests | ports/qemu-11.1/overlay/util/rcu.c:294-325 | by itself the worker comes to wait for its event after finitely many steps, even while a producer is preempted between exchange and link |
| CallDrain.BatchTakesAll | ports/qemu-11.1/overlay/util/rcu.c:287-325 | from the reading of a non-zero counter to the end of the batch exactly that many callbacks are dequeued |
| RcuRuntime.CallbackRunsAfterReaders | ports/qemu-11.1/overlay/util/rcu.c:281-337 | a callback runs only after every reader that was in a critical section before its enqueue has left it |
| RcuRuntime.SyncEdges | ports/qemu-11.1/overlay/util/rcu.c:296-308 | the worker's grace period starts with its own call and ends with the return of that call |
| RcuProgress.EveryCallbackRuns | ports/qemu-11.1/overlay/util/rcu.c:281-388 | every run of the two machines together extends to one in which every enqueued callback has run after its grace period and every call has returned |
| TimerSet.EditRefines | ports/qemu-11.1/overlay/util/qemu-timer.c:373-496 | modify, anticipate and delete on the list are the same operation on the set of (timer, expiry, arming rank) |
| TimerSet.EmptyRefines | ports/qemu-11.1/overlay/util/qemu-timer.c:373-439 | the empty list stands for the empty set, so the two below hold of every list that is ever built |
| TimerSet.EditsRefine | ports/qemu-11.1/overlay/util/qemu-timer.c:373-496 | so is any sequence of them: the list stays sorted, duplicate-free and holds exactly the armed timers |
| TimerSet.PopRefines | ports/qemu-11.1/overlay/util/qemu-timer.c:584-587 | popping the head removes the timer that precedes all others |
| TimerSet.ArrangementUnique | ports/qemu-11.1/overlay/util/qemu-timer.c:425-438 | the set determines the list |
| TimerSet.ExpireTimeIs | ports/qemu-11.1/overlay/include/qemu/timer.h:85-93 | `expire_time` is the expiry of an armed timer and -1 of any other |
| TimerSet.AnticipateTakesMinimum | ports/qemu-11.1/overlay/util/qemu-timer.c:478-496 | anticipate leaves min(old, max(new, 0)) |
| TimerSet.EqualTimesKeepOrder | ports/qemu-11.1/overlay/util/qemu-timer.c:425-436 | timers armed with the same non-negative time keep their arming order, whatever is done to others in between |
| TimerSpec.RemoveWf | ports/qemu-11.1/overlay/util/qemu-timer.c:373-389 | deleting keeps the list sorted and duplicate-free and removes exactly that timer |
| TimerSpec.InsertWf | ports/qemu-11.1/overlay/util/qemu-timer.c:425-438 | inserting an unarmed timer keeps the list sorted and duplicate-free and adds exactly that timer |
| TimerRun.RunFiresExpected | ports/qemu-11.1/overlay/util/qemu-timer.c:563-597 | the run loop fires exactly the timers due at the sampled time, in list order, less those an earlier callback cancelled or re-armed, and leaves none due |
| TimerRun.FiredOnceEach | ports/qemu-11.1/overlay/util/qemu-timer.c:563-597 | no timer fires twice, only due ones fire, and a due timer no callback touches does fire |
| TimerRun.RunSetsExpiry | ports/qemu-11.1/overlay/util/qemu-timer.c:563-597 | after the run every timer, armed or not, expires when the firings and the edits of the callbacks that ran say, in their order |
| TimerDeadline.SoonestMerges | ports/qemu-11.1/overlay/include/qemu/timer.h:780-787 | the unsigned comparison picks the earlier of two timeouts, -1 being later than all |
| TimerDeadline.HeadIsEarliest | ports/qemu-11.1/overlay/util/qemu-timer.c:231-244 | the head of a sorted list has the earliest deadline |
| TimerDeadline.EarliestIsUnique | ports/qemu-11.1/overlay/util/qemu-timer.c:252-289 | a list has one earliest deadline, so any two computations of it agree |
| TimerDeadline.DeadlineMeans | ports/qemu-11.1/overlay/util/qemu-timer.c:214-245 | -1 means that no timer is armed; otherwise one expires by the deadline and, if it is not zero, none before it |
| TimerList.TimerList.TimerDelLocked | ports/qemu-11.1/overlay/util/qemu-timer.c:373-389 | in place: the linked list afterwards holds Remove of what it held, acyclic, `expire_time` is -1 |
| TimerList.TimerList.TimerModNsLocked | ports/qemu-11.1/overlay/util/qemu-timer.c:398-439 | in place: afterwards it holds Insert of what it held; the result says whether the timer became the head |
| TimerList.TimerList.TimerDel | ports/qemu-11.1/overlay/util/qemu-timer.c:447-456 | deleting an armed or unarmed timer |
| TimerList.TimerList.TimerModNs | ports/qemu-11.1/overlay/util/qemu-timer.c:460-473 | re-arming a timer; the notifier is due exactly if it became the head |
| TimerList.TimerList.TimerModAnticipateNs | ports/qemu-11.1/overlay/util/qemu-timer.c:478-496 | anticipating a timer; the notifier is due only if it became the head |
| TimerList.TimerList.DeadlineNs | ports/qemu-11.1/overlay/util/qemu-timer.c:214-245 | the earliest deadline of the list, -1 if it is empty or the clock disabled |
| TimerList.TimerList.MaskedDeadlineNs | ports/qemu-11.1/overlay/util/qemu-timer.c:265-285 | the earliest deadline of the timers whose attributes are within the mask |
| TimerList.TimerList.Run | ports/qemu-11.1/overlay/util/qemu-timer.c:518-603 | terminates with the list and the firings RunTimers describes; progress iff one fired; each timer is unlinked before its callback |
| TimerList.TimerList.TimerPending | ports/qemu-11.1/overlay/util/qemu-timer.c:508-511 | a timer is pending exactly if it is in the list |
| TimerList.GroupDeadlineNs | ports/qemu-11.1/overlay/util/qemu-timer.c:637-648 | the earliest deadline over all used lists of the group |
| TimerList.ClockDeadlineNsAll | ports/qemu-11.1/overlay/util/qemu-timer.c:252-289 | the earliest deadline over all lists of a clock within the attribute mask |
| TimerList.WithinIff | ports/qemu-11.1/overlay/util/qemu-timer.c:265-285 | the timers within a mask are exactly those whose attributes the mask all has |
| TimerList.GroupTimesIff | ports/qemu-11.1/overlay/util/qemu-timer.c:637-648 | the times that the group deadline is the earliest of: those of used lists whose clock is enabled |
| TimerList.ClockTimesIff | ports/qemu-11.1/overlay/util/qemu-timer.c:252-289 | the times that the clock deadline is the earliest of: those of any list with all attributes in the mask |
| VirtualClock.VirtualTime.AdvanceVirtualTime | ports/qemu-11.1/overlay/util/qemu-timer.c:721-740 | over two linked lists whose timers the callbacks edit in place: terminates in the state the one-event-at-a-time simulation ends in |
| VirtualClock.VirtualTime.RunTimers | ports/qemu-11.1/overlay/util/qemu-timer.c:518-603 | running one of the two linked lists, with callbacks that may edit both, fires and leaves what RunList says |
| VirtualClock.VirtualTime.Deadline | ports/qemu-11.1/overlay/util/qemu-timer.c:252-289 | the walk over both lists returns the deadline the simulation goes by |
| VirtualClock.TurnIsSimulated | ports/qemu-11.1/overlay/util/qemu-timer.c:726-736 | one turn of the warp loop skips no event, does not pass the destination and makes progress |
| VirtualClock.DeadlineAllIsEarliest | ports/qemu-11.1/overlay/util/qemu-timer.c:252-289 | the deadline the warp loop advances by is the earliest of all armed timers of the two lists |
| VirtualClock.DeadlineAllIsClockDeadline | ports/qemu-11.1/overlay/util/qemu-timer.c:252-289 | it is what `ClockDeadlineNsAll` returns for the two lists with all attributes allowed |
| VirtualClock.RunListIsRunTimers | ports/qemu-11.1/overlay/util/qemu-timer.c:518-603 | on the list being run this is the loop of TimerRun |
| VirtualClock.SimulationIsExact | ports/qemu-11.1/overlay/util/qemu-timer.c:721-740 | the clock ends at the destination with nothing due; every timer fires with the clock equal to its expiry, or at the start if it was already due |
| VirtualClock.SimulationStory | ports/qemu-11.1/overlay/util/qemu-timer.c:584-594 | at the end every timer expires when its own story says, that is the firings and callback edits of it in their order, and every firing is of a timer that its story has expire then |
| VirtualClock.ArmedFires | ports/qemu-11.1/overlay/util/qemu-timer.c:721-740 | a timer that is armed for a time and then touched by no callback fires exactly once more, at that time, if that is not beyond the destination, and is otherwise still armed for it |
| VirtualClock.SetTimerFires | ports/qemu-11.1/overlay/util/qemu-timer.c:584-594 | so what a callback arms last takes effect |
| VirtualClock.FiredInOrder | ports/qemu-11.1/overlay/util/qemu-timer.c:733-734 | no timer of the main loop is due when one of the AioContext fires, and on one list none expires earlier than the one that fires |
| VirtualClock.SelectIff | ports/qemu-11.1/overlay/util/qemu-timer.c:584-594 | the edits on one list are those of the timers that belong to it |
| VirtualClock.SelectAppends | ports/qemu-11.1/overlay/util/qemu-timer.c:584-594 | in the order in which the callback makes them |
| VirtualClock.UntouchedFiresOnce | ports/qemu-11.1/overlay/util/qemu-timer.c:721-740 | a timer no callback touches fires exactly once if due by the destination and is otherwise still pending unchanged |
| VirtualClock.NoTimerIsLost | ports/qemu-11.1/overlay/util/qemu-timer.c:721-740 | whatever the callbacks do, a timer armed at the start fires on time, or is edited by a callback that ran, or is still armed and due later |
| VirtualClock.GoneStaysGone | ports/qemu-11.1/overlay/util/qemu-timer.c:721-740 | a timer that is not armed and not touched never fires |
| VmLifecycle.CallKeeps | entry/src/main/cpp/vm_lifecycle.h:34-80 | each call keeps: running means active, not asked to stop, no error; stop requests and errors are not undone; only Complete ends the run |
| VmLifecycle.CallsKeep | entry/src/main/cpp/vm_lifecycle.h:34-80 | the same over every call sequence: active falls exactly with the first Complete |
| VmLifecycle.FailureIsFinal | entry/src/main/cpp/vm_lifecycle.h:64-80 | once an error is recorded the run can only end as failed |
| VmLifecycle.HistorySays | entry/src/main/cpp/vm_lifecycle.h:34-80 | after any calls the flags and the status are what the history says: active until a completion, asked to stop since a failure or an accepted request, owned by the last request until its release, running once marked |
| VmLifecycle.ExitCodeDecides | entry/src/main/cpp/vm_lifecycle.h:72-80 | a run ends as stopped exactly with exit code zero and no error before; another code is in the error text |
| VmLifecycle.DigitsAreDecimal | entry/src/main/cpp/vm_lifecycle.h:72-80 | the code is written in decimal without leading zeros |
| VmLifecycle.FoundIffListed | entry/src/main/cpp/vm_lifecycle.h:83-94 | the substring search finds a reason without ';' exactly if it is one of the reasons already there |
| VmLifecycle.ErrorIsJoinOfReasons | entry/src/main/cpp/vm_lifecycle.h:83-94 | with reasons free of ';' the error text is the "; "-join of the distinct reasons in first-seen order |
| VmLifecycle.ErrorIsJoinIffNoneHidden | entry/src/main/cpp/vm_lifecycle.h:83-94 | for arbitrary reasons and calls, it is that join if and only if no reason that is new occurs, framed by separators, in the text of the reasons before it |
| VmLifecycle.SeparatorHidesReason | entry/src/main/cpp/vm_lifecycle.h:88-93 | such a hidden reason exists: "b" after "a; b" leaves no trace |
| VmLifecycle.VmLifecycle.MarkRunning | entry/src/main/cpp/vm_lifecycle.h:34-42 | accepted only while active, not asked to stop and without error |
| VmLifecycle.VmLifecycle.ClaimStop | entry/src/main/cpp/vm_lifecycle.h:44-54 | accepted only while active and without a stop owner |
| VmLifecycle.VmLifecycle.Fail | entry/src/main/cpp/vm_lifecycle.h:64-70 | the state after recording a failure |
| VmLifecycle.VmLifecycle.Complete | entry/src/main/cpp/vm_lifecycle.h:72-80 | the state after the runner has finished |
| VmLifecycle.WaitForVmStop | entry/src/main/cpp/vm_lifecycle.h:106-134 | returns only when the run is inactive, whichever moment another thread completes it at; its trace obeys `Rule` in both directions: a turn sends a quit exactly if the delay is over, none was accepted and none is less than 1000 ms old, and reports a deadline exactly if it is over and none was reported, with the reason that fits, which is in the error text |
| VmOwnership.OneOwner | entry/src/main/cpp/napi_init.cpp:3972-4004 | in every reachable state a runner thread is in one map entry, or with one monitor, or joined after it returned: never two of these |
| VmOwnership.OwnershipMoves | entry/src/main/cpp/napi_init.cpp:3986-3999 | in every step a runner thread leaves the map only into a monitor, and leaves a monitor only by the join of that monitor, after it returned; once joined it stays so |
| VmOwnership.JoinedAtMostOnce | entry/src/main/cpp/napi_init.cpp:3999-4002 | no run joins a runner thread twice, or before it returned |
| VmOwnership.InstallOverwritesNothing | entry/src/main/cpp/napi_init.cpp:3646-3656 | when StartVm assigns a thread the map holds none, and no VM is active or has a stop owner |
| VmOwnership.OneVmAtATime | entry/src/main/cpp/napi_init.cpp:3627-3644 | at most one VM is active or has a stop owner |
| VmOwnership.MonitorNeverLost | entry/src/main/cpp/napi_init.cpp:3979-3985 | the "could not find its owned runner" branch is unreachable; the entry found is the monitor's own runner |
| VmOwnership.FailedMonitorIsRetryable | entry/src/main/cpp/napi_init.cpp:4005-4012 | a failed monitor creation keeps the request and its cause, leaves the runner in the map and lets a new request be accepted |
| VmOwnership.FinishedStopUnblocks | entry/src/main/cpp/napi_init.cpp:3972-4004 | when a monitor releases the stop its runner is joined, the thread map is empty and no VM is active or has a stop owner: all that StartVm checks |
| VmOwnership.NaturalExitBlocksRestart | entry/src/main/cpp/napi_init.cpp:3646-3656 | a run that ends without a stop in progress keeps its thread in the map for ever, and no start gets past that check |
| VmOwnership.NaturalExitHappens | entry/src/main/cpp/napi_init.cpp:3646-3656 | a run in which a VM is started, exits by itself and the next start is refused at the thread map |
| VmOwnership.RefusedIffUnreaped | entry/src/main/cpp/napi_init.cpp:3646-3656 | a start that has found no VM active or stopping is refused at the thread map if and only if some run ended without a stop in progress and left its thread there; otherwise it goes on |
| VmOwnership.UnreapedArisesIff | entry/src/main/cpp/vm_lifecycle.h:56-80 | a step leaves a run behind like this if and only if its thread is in the map and the step is its completion without a stop owner, or gives up the stop of the completed run because no monitor could be created |
| VmOwnership.StepKeepsInv | entry/src/main/cpp/napi_init.cpp:3760-3821 | every step of every thread keeps the ownership invariant |
| VmStop.StopIsBounded | entry/src/main/cpp/napi_init.cpp:3971-4012 | no step of any thread takes an accepted stop further away from its end, and each step of the thread that acts for it, or of its runner on the way out, brings it nearer |
| VmStop.StopNeverStuck | entry/src/main/cpp/napi_init.cpp:3971-4012 | until an accepted stop is released, a step it waits for is enabled and brings it nearer to its end: neither `g_vmMutex` nor a lost monitor can block it |
| VmStop.StopCompletes | entry/src/main/cpp/napi_init.cpp:3971-4012 | from every reachable state with an accepted stop the run can be completed to its release, with the runner joined or the failure to create its monitor recorded |
| VmStop.RunKeepsHolder | entry/src/main/cpp/napi_init.cpp:3965-3985 | in every reachable state a held `g_vmMutex` belongs to a thread inside a critical section |
| VmStart.StartSucceeds | entry/src/main/cpp/napi_init.cpp:3627-3656 | when no VM is active or has a stop owner and no runner thread is left, a start can be carried through to a new run under its name, with its runner at work |
| VmStart.StartReturns | entry/src/main/cpp/napi_init.cpp:3818-3857 | having waited, StartVm returns, and the run goes on |
| VmStart.StopIsAccepted | entry/src/main/cpp/napi_init.cpp:3965-3971 | a stop request for an active run can be carried through to its acceptance |
| VmStart.TimeoutStops | entry/src/main/cpp/napi_init.cpp:3836-3852 | from every reachable state in which StartVm reports a failure of its run, the run can be brought to have that failure on record and to be inactive or to have a stop owner |
| Microphone.EnabledOnlyWhileActive | entry/src/main/cpp/microphone_session.h:14-106 | over any calls, a core is left enabled only while the session is active, named and bound to that core |
| Microphone.GenerationCounts | entry/src/main/cpp/microphone_session.h:29-39 | the generation after any calls is determined by the number of Begin calls, zero being skipped at the wrap |
| Microphone.StopEnds | entry/src/main/cpp/microphone_session.h:49-67 | End of its generation or Stop of its name ends a session and turns the core off |
| Microphone.ConsentDiesWithSession | entry/src/main/cpp/microphone_session.h:41-82 | no Running or Enable of an ended generation does anything while fewer than 2^32 - 1 Begin calls follow |
| Microphone.StopRevokes | entry/src/main/cpp/napi_init.cpp:3468-3485 | the same from any reachable state, when stop, startup timeout or end comes just before the late call |
| Microphone.OtherGenerationsAreInert | entry/src/main/cpp/microphone_session.h:41-82 | calls of another generation do nothing: in particular a late End does not end the session that has followed |
| Microphone.ConsentWorks | entry/src/main/cpp/microphone_session.h:29-106 | a session that is begun and runs can be enabled by its generation, whatever calls of others come in between, and turning off or an unknown status turns its core off |
| Microphone.BindTurnsOff | entry/src/main/cpp/microphone_session.h:14-21 | another core takes over nothing, and the session goes on |
| Microphone.LateRunningRevives | entry/src/main/cpp/microphone_session.h:34-47 | a late Running acts if and only if the Begin calls since are a positive multiple of 2^32 - 1 and the new session still waits for its own |
| Microphone.LateEnableActs | entry/src/main/cpp/microphone_session.h:34-82 | a late Enable acts if and only if the Begin calls since are a positive multiple of 2^32 - 1, the new session is active under that name with a bound core and a status, and the core changes: on to off, or off to on and it accepts |
| Microphone.WrappedGenerationRevives | entry/src/main/cpp/microphone_session.h:34-37 | such a revival exists |
| Microphone.MicrophoneSession.Begin | entry/src/main/cpp/microphone_session.h:29-39 | the state after Begin; the generation handed out is never zero |
| Microphone.MicrophoneSession.Running | entry/src/main/cpp/microphone_session.h:41-47 | the state after Running |
| Microphone.MicrophoneSession.End | entry/src/main/cpp/microphone_session.h:49-57 | the state after End |
| Microphone.MicrophoneSession.Stop | entry/src/main/cpp/microphone_session.h:59-67 | the state after Stop |
| Microphone.MicrophoneSession.Session | entry/src/main/cpp/microphone_session.h:69-73 | non-zero exactly while the named session is active, and then its generation |
| Microphone.MicrophoneSession.Enable | entry/src/main/cpp/microphone_session.h:75-82 | accepted only for the active session, its generation and a bound core |
| Microphone.MicrophoneSession.Status | entry/src/main/cpp/microphone_session.h:84-98 | the status text; an unknown status turns the core off |
| Microphone.MicrophoneSession.Bind | entry/src/main/cpp/microphone_session.h:14-21 | old and new core are off afterwards |
| RrWorker.KickNotLost | ports/qemu-11.1/overlay/accel/tcg/tcg-accel-ops-rr.c:82-93 | when a kick has ended, the vCPU in rr_current_cpu had its exit request set, or the worker had cleared rr_current_cpu since the kick began |
| RrWorker.GuestIsAskedToExit | ports/qemu-11.1/overlay/hw/core/cpu-common.c:76-81 | after the stopper's kick, a vCPU that is executing has been asked to exit |
| RrWorker.StopBoundsWorker | ports/qemu-11.1/overlay/accel/tcg/tcg-accel-ops-rr.c:194-345 | once stopping is set every worker step lowers its distance to the return and no other step raises it: at most 10n + 23 more steps |
| RrWorker.StopNeverStuck | ports/qemu-11.1/overlay/accel/tcg/tcg-accel-ops-rr.c:119-136 | until the stop returns, the step it waits for is enabled and brings it nearer: no deadlock on BQL, replay mutex or a missed broadcast |
| RrWorker.StopCompletes | ports/qemu-11.1/overlay/accel/tcg/tcg-accel-ops-rr.c:352-373 | from every reachable state after the request the run can be completed to one in which the worker has returned and the stopper has joined it and holds both locks again |
| RrWorker.StepKeepsInv | ports/qemu-11.1/overlay/accel/tcg/tcg-accel-ops-rr.c:194-345 | every step of every thread keeps the lock, current-CPU, stop and kick invariants |
| RrTurns.TurnsInOrder | ports/qemu-11.1/overlay/accel/tcg/tcg-accel-ops-rr.c:279-325 | in every run the CPU that is stored in rr_current_cpu after c is c + 1, or the outer loop resumes with c or c + 1, or from the start behind the last |
| RrTurns.NormalExitPassesOn | ports/qemu-11.1/overlay/accel/tcg/tcg-accel-ops-rr.c:295-324 | a guest that ends normally passes the turn on to c + 1 |
| RrTurns.OtherExitResumes | ports/qemu-11.1/overlay/accel/tcg/tcg-accel-ops-rr.c:308-316 | after a debug or atomic exit the loop resumes with c |
| RrTurns.OnePass | ports/qemu-11.1/overlay/accel/tcg/tcg-accel-ops-rr.c:279-325 | with all CPUs runnable, normal exits, no requests and no queued work one pass executes c, c + 1, .. to the last, each once |
| RrTurns.EveryCpuRuns | ports/qemu-11.1/overlay/accel/tcg/tcg-accel-ops-rr.c:228-331 | from every reachable state without a stop and with the locks free the worker comes by itself to run any given runnable CPU, whatever requests are set |
| RrTurns.AskedCpuDoesNotRun | ports/qemu-11.1/overlay/accel/tcg/tcg-accel-ops-rr.c:232-289 | a CPU that was asked to exit does not begin to run before the worker, resuming with it, has cleared the request |
| RrTurns.StoppedCpuIsPassed | ports/qemu-11.1/overlay/accel/tcg/tcg-accel-ops-rr.c:317-324 | a halted CPU is passed at once, a stopped one by way of the outer loop, and left for good only if it is unplugged |
| RrTurns.IdleWorkerSleeps | ports/qemu-11.1/overlay/accel/tcg/tcg-accel-ops-rr.c:119-136 | with all CPUs idle the worker goes to sleep and gives the BQL back |
| RrTurns.BroadcastWakes | ports/qemu-11.1/overlay/accel/tcg/tcg-accel-ops-rr.c:119-136 | a broadcast wakes it, with the CPU it was at |
| RrTurns.FirstCpuFirst | ports/qemu-11.1/overlay/accel/tcg/tcg-accel-ops-rr.c:226-228 | the loop starts with the first CPU |
| VcpuStorage.NothingFreedTwice | ports/qemu-11.1/overlay/accel/tcg/tcg-accel-ops-rr.c:380-428 | over any operations, nothing is freed or destroyed twice, nothing stored is freed, every started CPU shares the pair the stop uses |
| VcpuStorage.EverythingFreedOnce | ports/qemu-11.1/overlay/hw/core/cpu-common.c:343-368 | after the stop and all finalisations every allocation has been freed exactly once and every condition destroyed exactly once |
| VcpuStorage.StopTwice | ports/qemu-11.1/overlay/accel/tcg/tcg-accel-ops-rr.c:358-361 | a second stop changes nothing, and after a stop no CPU is an alias |
| VcpuStorage.FinalizeSafeIffDetached | ports/qemu-11.1/overlay/accel/tcg/tcg-accel-ops-rr.c:374-379 | finalising leaves no freed storage in use if and only if the CPU does not share the worker's |
| VcpuStorage.EarlyFinalizeDangles | ports/qemu-11.1/overlay/hw/core/cpu-common.c:343-368 | the unsafe order exists: a CPU finalised while the worker uses its storage |
| VcpuStorage.Runtime.Init | ports/qemu-11.1/overlay/hw/core/cpu-common.c:317-320 | in place: InitCpu |
| VcpuStorage.Runtime.Start | ports/qemu-11.1/overlay/accel/tcg/tcg-accel-ops-rr.c:397-428 | in place: the first CPU lends its storage, a later one frees its own and shares |
| VcpuStorage.Runtime.StopThread | ports/qemu-11.1/overlay/accel/tcg/tcg-accel-ops-rr.c:380-394 | in place: the loop detaches every alias, then the pair is freed |
| VcpuStorage.Runtime.Finalize | ports/qemu-11.1/overlay/hw/core/cpu-common.c:343-368 | in place: FinalizeCpu |
| TreeId.SameId | tools/verify_curl_source.py:26-46 | equal trees have equal identities, for every hash and whichever tool computes which |
| TreeId.SameTree | tools/verify_curl_source.py:26-46 | equal identities, computed by either tool, force equal names, modes, link targets and contents at every depth, if no two inputs hashed for the two trees collide |
| TreeId.IdsIdentifyTrees | tools/verify_curl_source.py:26-46 | both directions for whole trees, unsupported ones and two different tools included |
| TreeId.OrderDoesNotMatter | tools/verify_curl_source.py:28-46 | the order of directory entries cannot change the identity |
| TreeId.PayloadDecodes | tools/verify_curl_source.py:45-46 | an entry can be read off the front of a tree object in one way only |
| TreeId.FramedDecodes | tools/verify_curl_source.py:22-23 | the hashed bytes determine object kind and content |
| TreeId.IdIffCanon | tools/verify_curl_source.py:43-44 | an identity exists exactly if the tree has no unsupported entry outside what is skipped |
| TreeId.TreeContent | tools/verify_curl_source.py:26-46 | what is hashed for a directory is a Git tree object: for each entry that is not skipped, once and in the order of Git, its octal mode, a blank, its name, a zero byte and what it refers to, and nothing else |
| TreeId.LessIff | tools/verify_curl_source.py:45-46 | byte strings compare by their first difference |
| TreeId.ObjectBytes | tools/verify_curl_source.py:22-23 | the bytes hashed for an object |
| TreeId.DigitsAreDecimal | tools/verify_curl_source.py:22-23 | the size in them is decimal without leading zeros |
| TreeId.ToLfReplaces | tools/verify_curl_source.py:40-41 | each CR LF becomes one LF and nothing else changes |
| TreeId.PlainTreesAgree | tools/libffi_source.py:32-48 | the two implementations agree for every hash on trees with no nested .git and no CR LF in the four normalised files |
| TreeId.ToolsAgreeIffPlain | tools/libffi_source.py:34-46 | on supported trees they see the same tree if and only if that holds |
| TreeId.IdsAgreeIffPlain | tools/libffi_source.py:32-48 | for every tree the two scripts compute the same result if and only if that holds or both reject the tree, if no two inputs hashed collide |
| TreeId.NestedGitTellsApart | tools/libffi_source.py:34-36 | a tree with a nested .git whose two identities differ, if no two inputs hashed collide |
| TreeId.HexRoundTrip | tools/libffi_source.py:41-48 | `bytes.fromhex` undoes `hex` |
| TreeId.HexIs | tools/libffi_source.py:46-48 | each byte is written as two lower-case digits, the high one first |
| TreeId.CurlTreeId | tools/verify_curl_source.py:26-46 | the recursive loop computes Id |
| TreeId.LibffiTreeId | tools/libffi_source.py:32-48 | the recursive loop over hexadecimal identities computes the same Id |
| LoadImage.ImagesIdentifyPrograms | tools/validate_hap.py:31-53 | accepted files have equal images if and only if the bytes 0-39 and 48-57, all program headers and all load ranges agree |
| LoadImage.AcceptedIff | tools/validate_hap.py:27-52 | what is accepted, exactly, byte by byte of the file |
| LoadImage.RejectedAs | tools/validate_hap.py:27-52 | which exception a rejected file raises; of several bad program headers the first decides |
| LoadImage.ImageBytes | tools/validate_hap.py:34-52 | every byte of the image: the ELF header with bytes 40-47 and 58-63 zero, then each program header in order followed by the segment it loads, and nothing else |
| LoadImage.OtherBytesDoNotMatter | tools/validate_hap.py:34-50 | editing or appending bytes elsewhere never changes the result |
| LoadImage.Load | tools/validate_hap.py:21-53 | the loop over buffers computes Image, every rejection included |
| LoadImage.ReadSegment | tools/validate_hap.py:46-49 | the ELF header inside a segment is masked only if the segment starts at 0 and covers it |
| QmpReply.ReadStopQmpReply | entry/src/main/cpp/napi_init.cpp:3902-3938 | the two loops compute Replies |
| QmpReply.CompactLine | entry/src/main/cpp/napi_init.cpp:3922-3929 | the character loop computes Compact |
| QmpReply.RepliesAreDecided | entry/src/main/cpp/napi_init.cpp:3906-3936 | however the stream is split, an accepted reply is the first deciding line of the unsplit stream |
| QmpReply.ShortLinesReply | entry/src/main/cpp/napi_init.cpp:3906-3936 | with every line up to the deciding one under 16384 bytes the answer is that of the unsplit stream |
| QmpReply.CommandAcceptedIff | entry/src/main/cpp/napi_init.cpp:3902-3938 | however a stream with short lines is received, a command reply is accepted if and only if the first complete line that has the id has "return" and no "error", blanks between strings apart |
| QmpReply.GreetingAcceptedIff | entry/src/main/cpp/napi_init.cpp:3902-3938 | and a greeting if and only if some complete line has "QMP" with an object |
| QmpReply.AgreesWithUnsplitIff | entry/src/main/cpp/napi_init.cpp:3906-3937 | every way of receiving the stream gives the answer of the unsplit stream if and only if that is no or the lines up to the deciding one are under 16384 bytes |
| QmpReply.DependsOnSplitIff | entry/src/main/cpp/napi_init.cpp:3906-3937 | two ways of receiving one stream give different answers if and only if the unsplit stream is accepted, some line up to the deciding one has at least 16384 bytes, and all of them have fewer than 17407 |
| QmpReply.AcceptedLinesFit | entry/src/main/cpp/napi_init.cpp:3906-3937 | however it is received, a stream with a line of 17407 bytes or more up to the deciding one is not accepted |
| QmpReply.BestSplitDecides | entry/src/main/cpp/napi_init.cpp:3906-3937 | a stream without such a line can be received with the answer it has unsplit |
| QmpReply.LongGreetingDepends | entry/src/main/cpp/napi_init.cpp:3906-3930 | a greeting behind blanks depends on splitting if and only if its line has 16384 to 17406 bytes |
| QmpReply.CompactIdempotent | entry/src/main/cpp/napi_init.cpp:3922-3929 | compaction is idempotent |
| QmpReply.CompactKeepsStates | entry/src/main/cpp/napi_init.cpp:3924-3929 | it drops blanks outside strings and nothing else, and every other character is read in the same state |
| QmpReply.CompactJson | entry/src/main/cpp/napi_init.cpp:3924-3929 | on JSON text (RFC 8259, sections 2 and 7) it strips the blanks between strings and leaves every string as it is |
| QmpReply.CompactText | entry/src/main/cpp/napi_init.cpp:3924-3929 | the same of any text: characters between strings stay unless they are blanks, and strings stay, even one that does not end |
| QmpReply.EveryLineSplits | entry/src/main/cpp/napi_init.cpp:3924-3929 | every line is such a text |

## Left out

- Weak memory: steps are sequentially consistent where the code places its barriers; reordering below them is not modelled.
- The force-RCU notifiers, the sleep heuristics and `in_drain_call_rcu` only shorten waiting in `wait_for_readers`; they are no steps of the model. Fork handlers are left out.
- GracePeriod.GracePeriodSafe: the increment form is claimed only below 2^63 counter switches since the reader loaded its value, because at 2^63 it is false, as GracePeriod.WrappedCounterOverlooksReader shows.
- `rcu_call_count` is an unbounded integer, so more than 2^31 pending callbacks are not modelled; the worker's BQL around callbacks is not a lock of `CallQueue`, and callbacks other than the drain callback are opaque.
- CallDrain.EverythingRuns: states that the queue can always be emptied; that the scheduler runs each thread eventually is not claimed, here or in the other results of this kind (`GracePeriodCompletes`, `EveryCallbackRuns`, `EveryCpuRuns`, `StartSucceeds`, `TimeoutStops`).
- CallQueue.NoLostWakeup: states that a wake-up is still owed by an enabled producer; that this producer is scheduled is not claimed.
- Replay modes and icount: replay is off throughout, so checkpoints and the conversion of expired timers to CPU work are not modelled.
- Timer locks, notifiers and `timers_done_ev`: concurrent arming from other threads during a run is not modelled, except as edits made by callbacks.
- Timers on lists other than the two that the warp loop runs, and callbacks that arm timers in the past, are outside `VirtualClock`.
- VmLifecycle.WaitForVmStop: takes a bound on the inspection before which some other thread completes the run; a runner that never returns makes the code wait for ever.
- Clock readings are mathematical integers; overflow of `int64_t` milliseconds is not modelled.
- A `std::thread` constructor that throws inside `StartVm`, all disk, configuration, log and NAPI work of `StartVm`, and its 1500 ms wait: the last is the choice between success and a reported failure.
- The text of the reason recorded when no monitor can be created is one constant, without the exception's message.
- `set_(false)` is taken to disable a core always; what a core does beyond accepting or refusing is a parameter.
- RrWorker.StepKeepsInv: `qemu_process_cpu_events_common`, that is queued CPU work and the handling of `cpu->stop`, is no step of the model: what a queued function does, which for exclusive work includes dropping the BQL, is not part of it.
- VmStop.StopCompletes: says that the stop can always be completed and never gets stuck; that the scheduler grants a contended mutex, and that a runner does return, is not claimed.
- CPU hot-unplug, the kick timer, single-step and debug handling in the round-robin worker: CPUs form a fixed list, `cpu->stop` and `cpu->unplug` are free choices, and guest execution is one step that leaves `exit_request` alone.
- RrWorker.StopCompletes: says that the stop can always be completed and never gets stuck; that the scheduler grants a contended lock eventually is not claimed.
- CPU storage counts `g_free` and `qemu_cond_destroy`; the `created` flag and the worker's own signalling of it are not part of `VcpuStorage`.
- SHA-1 is any function to 20 bytes; the file system is a tree of entries, and `lstat` races are not modelled.
- The 2 s deadline, `poll` and `recv` failures of `ReadStopQmpReply` end the sequence of received pieces; which of them it was does not matter.
- `coroutine-hmos-stack.c`, the exit capture, `runstate.c`, `main-loop.c`, VNC, ArkTS and the release scripts: control-flow tricks, plumbing and string building with no property that spans functions.
