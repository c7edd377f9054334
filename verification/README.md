# Verified model of the airlock coordination store

Airlock's daemon lets agents share locks, events, a task queue, presence and a scratchpad.
All of it rests on `internal/store`: one SQLite database behind a single connection, so that
each transaction is atomic and serialized, plus wait state in memory. This project models
that package and proves what it promises, over every interleaving of its callers and reapers.

## How the model is laid out

* **Tables as values.** `LockTable`, `Registry`, `Tasks` and `Notes` write each transaction as
  a function of its table; `WaitQueues` does the same for the waiting lines.
* **Managers as objects.** `LockManagers`, `Events`, `TaskManagers`, `PresenceManagers` and
  `NoteStores` are classes whose methods update tables, lines and channels in place, with the
  loops the daemon has. Each method is proved against the functions above.
* **Protocols as step machines.** `LockProtocol` and `EventProtocol` make each transaction,
  each mutex section and each channel operation one step; anything may happen between two
  steps of a call, and a call keeps the second it read from the clock, however stale it gets.
  `TaskRuns` does the same where every call is one transaction, and `Recovery` puts the lock
  protocol, the work queue and the agents together. They reuse the table functions, so the classes
  and the machines speak about the same operations.
* **Theorems.** `LockSafety` (mutual exclusion, stale tokens), `LockLines` (order of the lines,
  first come first served), `LockLimits` (exactly how far that goes), `LockScenarios` (reachable
  runs beyond it), `LockWakeups`, `LockSleepers` (exactly which heads sleep), `EventProtocol`,
  `TaskRuns`, `Recovery`, `Notes`.

The clock is an integer that never goes back. Tokens are drawn fresh and are never empty; a
lock token is drawn at the commit that uses it, which no caller can tell from drawing it just
before. A timer or a cancelled context is a step that may happen at any time,
so the length of an event wait matters only in whether it may block at all.

## What the code does and its documents do not say

* `docs/ROADMAP-v2.md:81` says that an abandoned wake token expires after twice the lock ttl.
  The code keeps it for the larger of that and the wait window plus 30 seconds
  (`internal/store/locks.go:355-363`); the model follows the code.
* A lock call first tries without looking at the line (`internal/store/locks.go:219-226`), so
  newcomers and batches overtake waiters (`LockScenarios.HeadCanBeOvertaken`), and a re-poll that
  wins this way leaves its slot in the line until the collector takes it
  (`LockLimits.RepollLeavesItsSlotBehind`).
* First come, first served holds among those in line for callers that keep two rules: show a
  wake token in one call at a time, and be done with a call before its slot is due, the larger
  of the wait plus 30 seconds and twice the ttl after joining. Neither rule alone is enough
  (`LockScenarios.NeitherRuleSuffices`). With the first rule a waiting head stays the head if
  and only if no sweep reads the second it is due or later (`LockLimits.HeadUnlessOverdue`);
  with no rule at all, if and only if no step meets one of the two guards that take its slot
  out (`LockLimits.HeadUntilTakenOut`).
* When a winner's row is released before the winner has left the line, the wakeup goes to the
  winner's own slot, and the next in line can sleep on a free lock
  (`LockScenarios.PromotedHeadCanSleep`). This is the only way: a head sleeps if and only if
  such a dequeue promoted it with no signal and nobody owing it one, and since then no purge
  has begun a reaper pass, no grant has taken the lock, and no call has re-attached to the slot
  (`LockSleepers.HeadSleepsExactly`). A reaper pass reaches every such head
  (`LockWakeups.ReaperPassReachesEveryHead`).
* A transaction that tests expiry can see a purge committed before it if and only if its caller
  read the clock before the purge's second (`LockTable.PurgeInvisibleExactly`); the two releases
  see it exactly when they would have deleted an expired row (`LockTable.ReleaseSeesDeadRows`).
* The presence reaper selects lapsed agents once and then deletes them without looking again
  (`internal/store/presence.go:67-98`): a heartbeat is wiped if and only if the agent was
  selected or being released when it registered (`Recovery.HeartbeatWipedExactly`).
* Clearing an event restarts its generation (`internal/store/events.go:164-178`). A committed
  signal is hidden from a client that feeds generations back if and only if a clear came in
  between and no more signals followed the last clear than the client had already seen
  (`EventProtocol.SignalHiddenExactly`).

## Model

| member | source | states |
|---|---|---|
| LockSafety.MutualExclusion | internal/store/locks.go:122-341 | in every reachable world, between two grants of one name the first tenure ended: its row was deleted by someone who showed its token, or its agent's name without a token, or with all the locks of its agent, or the clock had reached the expiry last set for it |
| LockSafety.HeldOrEnded | internal/store/locks.go:208-341 | a granted lock is in the table under the same token and holder unless its tenure ended lawfully |
| LockSafety.ExpiryFromLastReading | internal/store/locks.go:283-341 | in every reachable world the expiry of a row is the second its last grant or renewal read plus the ttl asked for there; renewals do not pile up |
| LockSafety.CommitSeenBy | internal/store/locks.go:122-133 | for each of the 23 steps, exactly who a reader of any later second finds holding any name, and under which token |
| LockSafety.UndisturbedAttempt | internal/store/locks.go:219-238 | a first attempt with nothing in between takes the name exactly if nobody holds it at the clock's second, for its ttl from then, and touches no other; refused, it goes on to the line exactly if it may wait |
| LockSafety.UndisturbedBatch | internal/store/locks.go:506-571 | the same for a batch: all its names under their tokens for the ttl from the clock's second, or nothing |
| LockSafety.UndisturbedRenewal | internal/store/locks.go:621-671 | a renewal with nothing in between makes a held row run for the ttl from the clock's second, for one entitled only, keeping holder and token |
| LockSafety.ReleasedExactly | internal/store/locks.go:581-616 | a release of a held name takes its row if and only if the token shown is the row's or, with none shown, the agent named is the row's; it touches no other row, and a refused one changes nothing |
| LockSafety.StepKeepsSafe | internal/store/locks.go:208-341 | each of the 23 steps keeps the history lawful: grants only on names free at the second the winner read, expiry changed only by an entitled renewal read before it, set to the reading plus the ttl, rows removed only with authority or once expired |
| LockSafety.GrantKeepsSafe | internal/store/locks.go:291-328 | a grant whose clock reading may be stale is lawful at the clock of its commit |
| LockSafety.DeleteKeepsSafe | internal/store/locks.go:581-616 | a deleting commit is lawful if every missing row was released with authority or had expired |
| LockSafety.StaleTokenInert | internal/store/locks.go:577-671 | a token issued for a name and no longer in its row opens nothing in any continuation: no release and no renewal with it, on any name, succeeds or changes the table |
| LockSafety.StepTracks | internal/store/locks.go:818-837 | every lock token in the history was drawn and was issued for one name only, and a token that opens nothing stays that way |
| LockLines.PlacesNeverGetWorse | internal/store/locks.go:483-498 | in every continuation of every reachable world a surviving waiter's position never increases and its order relative to others is kept |
| LockLines.StepKeepsOrder | internal/store/locks.go:365-432 | every step leaves each line duplicate-free and in arrival order, and pushes nobody back |
| LockLines.JoinKeepsPlaces | internal/store/locks.go:381-400 | a newcomer goes to the tail, a caller showing a wake token of the line keeps its slot and adds no entry, nobody else moves |
| LockLines.RepollKeepsItsPlace | internal/store/locks.go:381-390 | a caller showing the wake token of any slot in line continues on that slot: the line keeps its length and all its slots in order, nothing is logged, and only that slot's horizon is set anew |
| LockLines.NewcomerGoesToTheTail | internal/store/locks.go:392-400 | any other caller gets a new slot behind everyone in line, with its agent and horizon, and no other line changes |
| LockLines.GoneForGood | internal/store/locks.go:392-400 | a slot that has left its line never comes back |
| LockLines.StaysUnlessTakenOut | internal/store/locks.go:140-153 | a slot leaves its line if and only if a sweep reads its horizon or later, or a call that won on this very slot dequeues; only re-attaching to it changes it |
| LockLines.StepKeepsPromises | internal/store/locks.go:343-363 | while no two calls share a slot, its horizon is the larger of wait plus 30 seconds and twice the ttl after its call joined |
| LockLines.QueuedGrantsGoToTheHead | internal/store/locks.go:243-257 | if callers keep both rules, a call that has seen itself at the head is at the head when its attempt commits and until it leaves, everyone else in line arrived later, and its leaving removes exactly the head |
| LockLines.WinnerLeavesFromTheHead | internal/store/locks.go:414-432 | under the same rules the winner's dequeue shortens its own line by exactly the head and touches no other |
| LockLines.StepKeepsSlots | internal/store/locks.go:343-363 | the collector never takes the slot of a call that keeps both rules |
| LockLimits.HeadUntilTakenOut | internal/store/locks.go:243-257 | with no rule for callers, whoever is at the head in a reachable world is there after any run, such as one up to the commit of its attempt, if and only if no step of the run met one of the two guards that take its slot out |
| LockLimits.HeadUnlessOverdue | internal/store/locks.go:355-363 | with one call per wake token, a waiting head stays the head if and only if no sweep of the run read the second its call is due or later |
| LockScenarios.NeitherRuleSuffices | internal/store/locks.go:243-257 | for each of the two rules, a run that keeps it throughout and in which a queued grant goes past the head of the line |
| LockScenarios.HeadCanBeOvertaken | internal/store/locks.go:219-226 | even in a run that keeps both rules, the first attempt of a newcomer, and that of a batch, can be granted while a waiter is parked at the head and stays there |
| LockScenarios.RepollCanWinPastItsSlot | internal/store/locks.go:219-226 | a waiter that gave up and polls again can win on its immediate attempt while its slot is in line |
| LockLimits.RepollLeavesItsSlotBehind | internal/store/locks.go:135-153 | after such a win the slot, if nobody uses it or re-attaches to it, is in the line if and only if no sweep has read its horizon or later |
| LockLimits.UnservedSlotIsCollected | internal/store/locks.go:135-153 | a slot to which nobody re-attaches is out of its line for good after the first sweep that read its horizon or later |
| LockLimits.SweepPromotesFirstLasting | internal/store/locks.go:140-164 | after a sweep the head is the first slot whose horizon lies beyond the sweep's second |
| LockWakeups.NoLostLockWakeup | internal/store/locks.go:122-202 | in every reachable world a waiter parked after a failed attempt and at the head has a signal, or the lock has a row, or a releaser or reaper past its deletion is about to signal it, or a call on the same slot is about to retry |
| LockWakeups.NewCarrier | internal/store/locks.go:608-616 | whenever a row disappears or a signal is consumed, the acting call is left carrying the wakeup |
| LockWakeups.CarrierDelivers | internal/store/locks.go:805-816 | each step of a call that carries a wakeup keeps it or delivers it |
| LockWakeups.OneWakeupPerSignal | internal/store/locks.go:194-202 | however many signals were sent, the call that wakes uses them up: nobody on the slot wakes again before another is sent |
| LockWakeups.ReaperPassReachesEveryHead | internal/store/locks.go:155-179 | whatever others do in between, a reaper pass that runs to its end has signalled the head of every line its sweep left, or found the lock live |
| LockWakeups.ReleaserServesEveryHead | internal/store/locks.go:799-816 | whatever others do in between, a release that runs to its end has, for each lock it freed, found the line empty or signalled the head it saw |
| LockSleepers.HeadSleepsExactly | internal/store/locks.go:122-202 | in every run, the head of a line, tried or not, has no signal, no row and no wakeup on its way if and only if the dequeue of a winner whose row had already gone again promoted it with none of these, and no purge, grant of the lock or re-attach has come since |
| LockSleepers.SleepStepExactly | internal/store/locks.go:243-269 | after any step a head sleeps if and only if the step was such a dequeue, or it slept before and the step was no purge, left no row of the lock and did not re-attach to it |
| LockSleepers.AttendedExactly | internal/store/locks.go:155-179 | while a slot stays the head it is attended if and only if it was at first or a purge, a row of the lock or a re-attach has come since |
| LockScenarios.PromotedHeadCanSleep | internal/store/locks.go:243-269 | a reachable run, keeping both rules for callers, in which a head promoted without having tried sleeps |
| LockTable.LazyRefinesEager | internal/store/locks.go:127-133 | the purges can be dropped from any run in which each transaction that tests expiry reads no second earlier than the purges before it: all its answers are the same, and so are the rows alive at the last purge |
| LockTable.StateAgrees | internal/store/locks.go:278-341 | one transaction keeps two tables with the same live rows that way |
| LockTable.ReplyAgrees | internal/store/locks.go:506-571 | acquire, batch, renewal and listing answer alike on two tables with the same live rows |
| LockTable.OpSeenBy | internal/store/locks.go:278-803 | every transaction on the table, by what any reader finds afterwards at any second |
| LockTable.PurgeSeenBy | internal/store/locks.go:130-133 | a purge takes exactly what a reader at its second no longer finds |
| LockTable.RenewalAnswered | internal/store/locks.go:636-651 | a renewal is told not found unless someone holds the name at the second read, and then succeeds exactly for whoever shows the row's token or, in the older form, names its agent |
| LockTable.PurgeInvisibleExactly | internal/store/locks.go:127-133 | a purge is invisible to an acquire, batch, renewal or listing, whatever the table, if and only if it read the purge's second or later, or is a batch of no names |
| LockTable.BatchIsAllOrNothing | internal/store/locks.go:500-571 | a batch that finds a name live changes nothing and is told exactly the live rows among its names; any other gives each name its own token and touches no other row |
| LockTable.ReleaseSeesDeadRows | internal/store/locks.go:581-616 | a purge changes the answer of a release, by token or by agent, if and only if the release would have deleted an expired row |
| LockManagers.LockManager.TryAcquire | internal/store/locks.go:283-341 | granted exactly when no live row was there, with the new table; otherwise the holder and its remaining seconds |
| LockManagers.LockManager.StartLock | internal/store/locks.go:208-238 | bad ttl, immediate grant, plain refusal or a place in line, each exactly when the code gives it, with table and lines; a known wake token keeps its waiter, and the horizon counts a wait over 50 seconds as 50 |
| LockManagers.LockManager.TryTurn | internal/store/locks.go:243-257 | one turn of the waiting loop wins exactly when the slot is at the head and the lock is free, and then leaves the line |
| LockManagers.LockManager.Enqueue | internal/store/locks.go:369-401 | a known wake token, wherever it stands in line, gets the very waiter it names and adds nobody; anyone else gets a fresh waiter at the tail; either way its horizon is set anew, and other lines and all signals are kept |
| LockManagers.LockManager.Dequeue | internal/store/locks.go:415-432 | in-place compaction removes the waiter from its line and changes no other |
| LockManagers.LockManager.IsHead | internal/store/locks.go:404-412 | true exactly when the waiter is first in the line |
| LockManagers.LockManager.QueuePosition | internal/store/locks.go:485-498 | the 1-based place of this very waiter in line, 0 exactly when it is gone |
| LockManagers.LockManager.NotAcquiredResult | internal/store/locks.go:437-481 | the live holder if any, and the wake token with its position and the retry hint exactly when the slot is in line |
| LockManagers.LockManager.ReapOnce | internal/store/locks.go:122-179 | expired rows and collected waiters are gone, the signalled waiters are those signalled before and the heads of lines whose lock is free, so every free lock with a line has a signalled head |
| LockManagers.LockManager.Unlock | internal/store/locks.go:581-616 | released exactly to the row's token or, without a token, to the row's agent; that row alone goes and exactly the head of the line gets a signal |
| LockManagers.LockManager.Renew | internal/store/locks.go:621-671 | bad ttl, not found, not owned or renewed exactly when the code says so; success sets the expiry to now plus the ttl and nothing else changes |
| LockManagers.LockManager.RenewByAgent | internal/store/locks.go:678-727 | the same for the holder's agent id |
| LockManagers.LockManager.ReleaseAgentLocks | internal/store/locks.go:764-803 | all rows of the agent go, expired or not, their number is returned, and exactly the heads of those lines get a signal |
| LockManagers.LockManager.LockMany | internal/store/locks.go:506-571 | all or nothing: fresh distinct tokens for every name, or an untouched table with the holder of the least live name, or a rollback when the token source fails midway |
| LockManagers.LockManager.GrantAll | internal/store/locks.go:544-561 | phase two gives each name a row under its own token from the supply, or stops when the supply fails |
| LockManagers.LockManager.ListLocks | internal/store/locks.go:730-760 | exactly the live locks, by name, with holder and remaining seconds |
| Names.DedupeSorted | internal/store/locks.go:848-863 | the in-place compaction of the sorted copy is strictly increasing with the same set of names |
| Names.LessAtFirstDifference | internal/store/locks.go:850-852 | one name comes before another exactly if it is smaller where they first differ or is a proper beginning of it |
| WaitQueues.Horizon | internal/store/locks.go:347-363 | the horizon lies at least the wait window plus 30 seconds and twice the ttl ahead, and equals one of the two |
| WaitQueues.PositionCounts | internal/store/locks.go:485-498 | a position counts the slots up to and including one's own, 1 is the head, and 0 means having no slot |
| WaitQueues.KeepShortens | internal/store/locks.go:140-153 | taking slots out leaves exactly the kept ones, in arrival order, and pushes nobody back |
| EventProtocol.NoLostEventWakeup | internal/store/events.go:119-162 | in every reachable world a call blocked on an open channel with a generation its caller has not seen has a signaller between its commit and its broadcast |
| EventProtocol.BroadcastWakesAll | internal/store/events.go:59-95 | that broadcast enables every call blocked on the name to go on |
| EventProtocol.StepKeepsSound | internal/store/events.go:44-95 | every step keeps a captured open channel the current one and a blocked call up to date or announced |
| EventProtocol.ClientMissesNothing | internal/store/events.go:110-162 | with no clear during its two waits, a client feeding the generation of the first into the second never sees it go back, gets fired exactly when it grew, and holds the current one once committing has stopped |
| EventProtocol.GenerationCountsSinceClear | internal/store/events.go:71-108 | in every run the generation is the number of signals since the last clear |
| EventProtocol.ReadFiresExactly | internal/store/events.go:134-147 | a read fires if and only if more signals were committed since the last clear than the caller has seen, and otherwise blocks unless it may not wait |
| EventProtocol.FedBackExactly | internal/store/events.go:110-147 | in every run, clears included, a client feeding a generation back is fired exactly if a signal came since, when no clear did, and exactly if more signals followed the last clear than it had seen, when one did |
| EventProtocol.SignalHiddenExactly | internal/store/events.go:164-178 | the generation fails to pass what the client had read, although a signal was committed since, if and only if a clear came in between and at most that many signals followed the last one |
| EventProtocol.RepliesReportReads | internal/store/events.go:139-161 | every reply, a timed-out one too, carries a generation its client read at some step |
| EventProtocol.ClearCanHideASignal | internal/store/events.go:164-178 | across a clear a reachable run hides a committed signal from such a client |
| Events.ReturnsAtFirstNews | internal/store/events.go:134-161 | a wait returns what it reads in the first round that is news to its caller or in which it may not go on, and fires in the former case only |
| Events.EventManager.Wait | internal/store/events.go:119-162 | the capture, read, block loop returns that outcome, whatever others do before and after each read and whether or not the deadline beats a broadcast; with no wait it checks once |
| Events.EventManager.Broadcast | internal/store/events.go:59-69 | closes the current channel and installs a fresh one, for this name only, and does nothing if there is none |
| Events.EventManager.Signal | internal/store/events.go:71-95 | the generation grows by one from 0 when absent, and the old channel is closed |
| TaskRuns.ClaimsSeparatedByReturn | internal/store/tasks.go:141-219 | over any run, two claims of one task are separated by its return to the pool |
| TaskRuns.FinishedOnceByLatestClaim | internal/store/tasks.go:221-275 | over any run a task is finished at most once, last of all, under the token of the claim just before |
| TaskRuns.TasksConserved | internal/store/tasks.go:118-139 | no task disappears or changes queue, payload, author, priority or creation, a finished one is frozen, new ids are larger |
| TaskRuns.PushedIsKept | internal/store/tasks.go:118-139 | a pushed task starts pending in its queue under a new, larger id and carries queue, payload, author and priority as pushed through every continuation |
| TaskRuns.RowAfterStep | internal/store/tasks.go:101-313 | the whole effect of each transaction on the columns of each task |
| TaskRuns.StepKeepsSound | internal/store/tasks.go:101-313 | every transaction keeps the lease columns null exactly while pending, each row in step with its history, and lease tokens apart |
| TaskRuns.StaleLeaseInert | internal/store/tasks.go:221-313 | a lease token that no longer holds its claim completes, fails and renews nothing, on any task, in any continuation |
| TaskRuns.LapsedLeaseStaysLapsed | internal/store/tasks.go:277-313 | once a lease has run out, renewals that read that second or later never revive it |
| TaskRuns.ReapReturnsExactly | internal/store/tasks.go:90-116 | the reaper returns exactly the claims lapsed at its second or whose claimant has no registration reaching past it, a never-registered one included |
| TaskRuns.ClaimLastsExactly | internal/store/tasks.go:101-275 | a claim is held after a run if and only if no step of it completes or fails the task under its token or reaps it with its lease run out or its claimant absent |
| Tasks.DrainOrder | internal/store/tasks.go:174-184 | repeated claims hand out every pending task of the queue once, no lower priority before a higher and, within one priority, no larger id before a smaller |
| Tasks.DrainExists | internal/store/tasks.go:141-154 | repeated claims come to an end from any table |
| Tasks.FailedClaimUndone | internal/store/tasks.go:229-275 | claiming a task and failing it with requeue leaves the table exactly as it was |
| Tasks.LeaseLasts | internal/store/tasks.go:90-116 | a claim survives a reap at any second exactly while its lease runs and its claimant is registered past that second |
| Tasks.RenewalExtends | internal/store/tasks.go:277-313 | a renewal with the claim's token before the lease has run out succeeds, and a later reap spares the claim exactly until that many seconds after the second read; any other changes nothing |
| Tasks.EndsSeenBy | internal/store/tasks.go:221-275 | ending a claim takes the claim's own token, leaves the task finished or pending as asked, and touches no other claim |
| Tasks.ClaimsSeenBy | internal/store/tasks.go:190-199 | after a claim its token and no other holds the task, which is no longer pending, and every other task is as it was |
| TaskManagers.TaskManager.SelectNext | internal/store/tasks.go:174-188 | a pending task of the queue such that no other has a higher priority, or the same and a smaller id; none exactly when none is pending |
| TaskManagers.TaskManager.ClaimNext | internal/store/tasks.go:155-219 | leases exactly that task to the agent under the token for the given time, or 120 seconds, and shows what was pushed; or reports an empty queue |
| TaskManagers.TaskManager.Transition | internal/store/tasks.go:240-275 | changes the row exactly when it is claimed under this token, as finished or back to pending |
| TaskManagers.TaskManager.ReapOnce | internal/store/tasks.go:101-116 | one guarded update returns the orphaned claims |
| TaskManagers.TaskManager.List | internal/store/tasks.go:315-359 | exactly the tasks of the queue, oldest first, with lease details only while claimed |
| Recovery.CrashRecovery | internal/store/presence.go:63-98 | from the lapse of a silent agent's registration: once the presence reaper that selected it is through with it, with anything by others in between, it has no lock and no registration and every line behind its locks has been found empty or had its head signalled, and once the task reaper has run after that it has no claim, for good |
| Recovery.CoreIsReachable | internal/store/presence.go:88-97 | whatever agents, tasks and the presence reaper do, the locks and lines of a reachable world are those of a reachable world of the lock protocol, so every lock theorem holds there |
| Recovery.QueueIsReachable | internal/store/tasks.go:93-116 | the tasks and registrations of a reachable world are those of a reachable world of the work queue, so every task theorem holds there |
| Recovery.RegistrationIsItsOwn | internal/store/presence.go:88-134 | over any run a registration is what its agent's own heartbeats and departures and the reaper's deletions of that agent make of it, and nothing else touches it |
| Recovery.HeartbeatWipedExactly | internal/store/presence.go:67-121 | an agent registers and keeps that registration alive: by the time the presence reaper has nothing left to do to it, it has deleted it if and only if it had selected it or was releasing its locks when it registered |
| Recovery.TimelyAgentIsSpared | internal/store/presence.go:21-25 | an agent that never lets a registration lapse loses to no reaper a registration, an unexpired lock or, if registered, a claim with an unexpired lease |
| Recovery.LateHeartbeatIsWiped | internal/store/presence.go:67-98 | an agent selected by the reaper that then registers anew loses the new registration as soon as the release of its locks is done |
| PresenceManagers.PresenceManager.ReapOnce | internal/store/presence.go:63-98 | with nothing in between, exactly the lapsed agents and their locks go, and every line behind a freed lock has a signalled head |
| Registry.HeartbeatSeenBy | internal/store/presence.go:105-121 | after a heartbeat its agent is present exactly until the ttl from the second read has run out, its first registration is kept, and every other registration is as it was |
| Registry.SelectionSeenBy | internal/store/presence.go:71-72 | the reaper selects exactly the registered who are not present at its second, and no later reader misses them |
| PresenceManagers.PresenceManager.ReapAgents | internal/store/presence.go:88-97 | the loop over the selection deletes exactly those agents and their locks and signals exactly the heads behind them |
| PresenceManagers.PresenceManager.Register | internal/store/presence.go:105-121 | a positive ttl sets the expiry, keeps the first registration second and leaves every other agent alone; any other ttl changes nothing |
| PresenceManagers.PresenceManager.ListAgents | internal/store/presence.go:136-167 | exactly the unexpired agents, by id, with remaining seconds |
| Notes.SwapsFormAChain | internal/store/notes.go:120-177 | over any run on a key changed by non-expiring swaps only, each successful swap replaces what the one before wrote, from the first value to the last |
| Notes.RaceHasOneWinner | internal/store/notes.go:120-177 | of swaps that share one expected value and never write it, exactly one wins if the key starts there and anyone enters, and none otherwise |
| Notes.IncrementsAddUp | internal/store/notes.go:179-200 | the numbers handed out are the running totals of the steps and the counter ends at the sum |
| Notes.NumbersAreUnique | internal/store/notes.go:179-200 | positive increments hand out strictly growing numbers |
| Notes.SetSeenBy | internal/store/notes.go:25-41 | a note set at a second is what every reader finds, with its author, for ever without a positive ttl and otherwise exactly until it has run out; no other key is touched |
| Notes.SwapSeenBy | internal/store/notes.go:120-177 | a swap happens exactly when a reader at its second finds the expected value, or nothing when that is empty, and then is a set; otherwise no reader sees a change |
| Notes.DeleteSeenBy | internal/store/notes.go:97-118 | a deleted note is found by nobody and only it is gone |
| Notes.IncrementSeenBy | internal/store/notes.go:179-200 | an increment moves its own counter by its step, from 0 when absent, and nothing else |
| NoteStores.NoteStore.SetNoteIf | internal/store/notes.go:129-177 | swaps exactly when the effective value, empty if absent or expired, is the expected one, and otherwise changes nothing |
| NoteStores.NoteStore.GetNote | internal/store/notes.go:43-64 | found exactly when present and unexpired, with author and remaining time |
| NoteStores.NoteStore.ListNotes | internal/store/notes.go:66-95 | exactly the readable notes, by key |

## Left out

- HTTP and JSON-RPC transport, header checks, token files and argument parsing (`internal/mcp`): input and output with no deep state.
- Command line, service installation, website and packaging.
- SQLite itself: each transaction is atomic and serialized, and a database error is a call that changed nothing. Rollback is modelled where the code itself aborts, in `LockMany`.
- Randomness: tokens are fresh by assumption; there is no probability argument.
- Counter overflow and the width of seconds: integers are unbounded.
- The loop of a lock call as one method: its parts before and between blockings are methods, and the whole loop, with others acting while it blocks, is the step machine of `LockProtocol`.
- Go slices: a line is a sequence that compaction replaces, so the spare capacity behind a shortened slice does not appear. `DedupeSorted` does compact its array in place.
- Goroutine start-up and shutdown (`Start`, `Wait`, `reapLoop`).
- Strict fairness and liveness: the immediate attempt allows overtaking, and nothing here says that a call is scheduled.
- The legacy Swift stores.
- LockManagers.LockManager.LockMany: the context and the wait time that the daemon accepts and ignores are not parameters.
- LockLines.QueuedGrantsGoToTheHead: needs the two rules for callers, without which it is false; the exact conditions are `LockLimits.HeadUnlessOverdue` and `LockLimits.HeadUntilTakenOut`.
- EventProtocol.ClientMissesNothing: does not cover two waits with a clear between them, for which it is false; `EventProtocol.FedBackExactly` says what happens then.
- LockTable.LazyRefinesEager: does not cover a client that read the clock before a purge committed ahead of it, which may see the purge; `LockTable.PurgeInvisibleExactly` is the exact condition for one.
