# OberWatch in Dafny

OberWatch is a proxy in front of LLM providers. It holds each agent to a period budget and
each task to a lifetime cap, bills what every response used, alerts on what it sees, keeps
its totals in SQLite, draws them on a dashboard and can upgrade itself. This project models
the parts where a mistake costs money or safety, and proves what they promise.

`dafny verify dfyconfig.toml` checks everything. Nothing here is executed.

## How to read it

| file | models |
|---|---|
| `Dollars.dfy` | amounts of money |
| `Text.dfy` | byte strings (one character a byte), whitespace, splitting, byte order, numerals |
| `Agents.dfy`, `AgentLaws.dfy` | one agent's budget: periods, thresholds, runaway window, kills, rows, and what a start with its declared policy makes of them |
| `SpendLaws.dfy` | what a check decides, and what its decisions keep over runs |
| `DecisionLaws.dfy`, `PeriodLaws.dfy` | what each call on the manager answers and leaves, told from an agent's own fields, and alerts over any number of periods |
| `Governor.dfy`, `GovernorLaws.dfy` | the budget manager as an object with the cross-agent budget, and runs of calls for many agents |
| `Tasks.dfy` | task caps: reserve, settle, release, reset |
| `TaskStore.dfy`, `AgentStore.dfy` | dirty flags, flushes, deletions and renames against a store whose writes fail |
| `RowLaws.dfy` | what agent rows say while calls, one flusher and deletions interleave |
| `Billing.dfy`, `Money.dfy` | the gate, the two places a response is billed, one request end to end, and where each cost ends up |
| `GateLaws.dfy` | what the gate lets through, as which model and at what price, after any calls |
| `CostWriter.dfy` | the buffered writer between the sink and the store |
| `Sse.dfy` | token accounting of streamed responses, chunk by chunk and line by line |
| `SemVer.dfy`, `Checksums.dfy` | versions and their order, the checksums document |
| `Applier.dfy`, `UpgradeHistory.dfy` | the privileged applier, one run and any history of runs |
| `Dispatcher.dfy` | the alert queue, its workers, retries and counters |
| `TimeKey.dfy` | the SQL key that makes stored timestamps sort by time |
| `CostSeries.dfy` | the stacked cost chart |

Code that updates objects in place is a class whose methods are proved against functions on
values; concurrency is a state machine whose steps are the stretches between lock
operations (or between atomic operations, for the dispatcher), and the theorems range over
every sequence of steps. Dollars are reals, times are integers of nanoseconds. What the
program takes from outside is a parameter of the statement: the JSON decoder, the price
table, the hash and the archive format, the release platform, the browser's calendar and
locale, "one month later", and for every write whether it succeeds.

## Where the code does less than it could

Each of these has a failing case proved at a concrete input and the exact condition under
which the code does keep the property.

| what happens | failing case | exact condition |
|---|---|---|
| numeric prerelease identifiers of ten or more digits can compare in the wrong order | `SemVer.TenDigitCounterexample` | `SemVer.CompareAgreesWithSemVer` |
| two flushers can write one task in the wrong order and leave the older total stored with the task clean | `TaskStore.TwoFlushersLoseATotal` | `TaskStore.EveryOrderStores` |
| an agent whose row a failing flush did not write is not marked dirty again | `AgentStore.OneFailedWriteForgets` | `AgentStore.EveryFlushSavesAll` |
| a cost record that finds the writer's buffer full is never stored | `CostWriter.FullBufferDrops` | `CostWriter.StoreMatchesBudgets` |
| a rename holds no lock between its memory half and its store half, so a flush or a deletion in between can leave a row whose agent is gone | `AgentStore.RenameCanResurrect`, `AgentStore.RefusedRenameCanStrand`, `AgentStore.DeletionBetweenHalves` | `AgentStore.RenameEndsInStep`, `AgentStore.RefusedRenameEndsInStep` |
| every start puts the declared policy of a configured agent back over the one it ran under, so a limit lowered at runtime stops refusing | `SpendLaws.StartLoosensPolicy` | `AgentLaws.RestartKeepsPolicy` |
| and a limit raised at runtime alerts after the start for what it did not alert before | `AgentLaws.DeclaredLimitAlerts` | `AgentLaws.RestartKeepsAlerts` |
| raising a limit leaves fired thresholds ahead of the spend, and then a restart fires them again | `AgentLaws.RaisedLimitCounterexample` | `AgentLaws.KeptPolicyKeepsAlerts` |
| timestamps compared as stored text are misordered within one second | `TimeKey.NoonSortsLate` | `TimeKey.RawOrderIsTime` |
| a stream in which neither usage nor content was found is estimated differently by the two forms | `Sse.BlankStreamDiffers` | `Sse.AccumulatorRefinesBuffered` |

Two statements have a condition the program always meets. A task gets every cost its records
name only because no hold is released before its billing is settled
(`Money.TaskGetsItsBills`, and `Money.LateBillingLosesMoney` for the other order); the request
path keeps that order (`Billing.Gate.Serve`). Retries back off exponentially only below a base
of 2^62 ns (`Dispatcher.ScheduleIsExponential`, `Dispatcher.HugeBaseWraps`); the program's base
is half a second.

A kill without a recorded reason is meant to clear like a budget kill, but the spend it is
judged by is zeroed first, so it never clears (`AgentLaws.LegacyKillNeverClears`, for every
state). The rollback copy is cut at 256 MiB; extraction refuses larger binaries, so only a
first binary of that size could be cut (`UpgradeHistory.RollbackThroughHistory`).

## Model

| member | source | states |
|---|---|---|
| Tasks.TaskManager.ReserveTask | internal/budget/tasks.go:109-179 | a blank task is let through untouched; otherwise the request of an agent with a positive cap of its own is allowed exactly when spent, reserved and estimate fit that cap, and any other agent's exactly when the gate's cap is not positive or they fit it; an allowed one adds its estimate and one request to what is held, under a fresh, undone hold, and a refused one moves no money; the decision reports the task's spent and reserved amounts, its cap and the projection |
| Tasks.TaskManager.SettleTask | internal/budget/tasks.go:181-210 | the hold comes off the task; billed cost, never negative, is added once with one request, names the agent and marks the task dirty; no other task changes |
| Tasks.TaskManager.ResetTask | internal/budget/tasks.go:257-275 | the task's spend and request count are zero afterwards, what is held stays held, it is marked, no other task changes; an unknown task is an error and changes nothing |
| Tasks.NamesAgree | internal/budget/manager.go:961-967 | an agent is known by its trimmed name, never blank: a blank one is unknown |
| Tasks.TaskReservation.Settle | internal/budget/tasks.go:81-88 | takes effect only on a hold neither settled nor released before |
| Tasks.TaskReservation.Release | internal/budget/tasks.go:92-99 | drops the hold unbilled, and does nothing after a settlement or an earlier release |
| Tasks.RunKeepsAccounts | internal/budget/tasks.go:165-171 | in every reachable state each task's reserved amount and in-flight count are the sum and the number of the holds still outstanding |
| Tasks.ClampsAreIdle | internal/budget/tasks.go:187-197 | in a reachable state dropping a hold takes off exactly its estimate: neither clamp to zero ever bites |
| Tasks.AtMostOneEffect | internal/budget/tasks.go:81-99 | under any sequence of calls to settle and release, one hold is dropped at most once |
| Tasks.StepKeepsHolds | internal/budget/tasks.go:122-210 | an outstanding hold never changes, and only a reservation adds one, under a number never used before |
| Tasks.CapSafety | internal/budget/tasks.go:109-275 | over any interleaving of reserve, settle, release and reset, under tables that give the requesting agent a positive cap of its own of at most L, or without one the gate a cap in (0, L], spent plus reserved stays within the larger of its start and L plus what the settlements overshot their own estimates |
| Tasks.HonestEstimatesKeepTheCap | internal/budget/tasks.go:109-179 | under such tables, while no request costs more than it reserved, a fresh task's settled spend never passes L |
| TaskStore.SerialRunIsSafe | internal/budget/tasks.go:365-425 | with at most one record of a task in flight, under any settlements, resets, agent deletions and write failures, every task is at every step dirty, or on its way with its current totals, or stored with them; with nothing in flight it is dirty or stored |
| TaskStore.BatchIsSerial | internal/budget/tasks.go:353-378 | a flusher that starts its batch with none of those tasks in flight meets that condition |
| TaskStore.TaskFlusher.TakeDirtyTaskRecord | internal/budget/tasks.go:400-410 | a record is taken exactly from a dirty task, carries its current totals and leaves it clean |
| TaskStore.TaskFlusher.SnapshotDirtyTaskRecords | internal/budget/tasks.go:412-425 | one record for each dirty task and no other, with the totals it had; every task is clean afterwards and otherwise unchanged |
| TaskStore.TaskFlusher.StoreTaskRecord | internal/budget/tasks.go:383-398 | a successful write stores the row; a failed one leaves the store alone and puts the dirty flag back |
| TaskStore.TaskFlusher.FlushTasks | internal/budget/tasks.go:365-378 | whatever writes fail, every task ends dirty or stored, totals in memory are untouched, nothing clean becomes dirty, and the flush reports success exactly when nothing is left dirty |
| TaskStore.FlushOutcome | internal/budget/tasks.go:365-398 | after a batch each dirty task was either written with the totals it was taken with or is dirty again |
| TaskStore.RestartKeepsTotals | internal/budget/tasks.go:311-337 | loading the store gives back spent and count of every clean task, holds nothing, and starts a consistent state |
| TaskStore.RecordLoadsBack | internal/budget/tasks.go:311-337 | the record of a task loads back as that task, clean and with nothing held |
| TaskStore.DetachMeans | internal/budget/manager.go:1185-1213 | a deleted agent's name goes from the tasks that used it last, which are marked, and from their rows, and nothing else changes |
| TaskStore.EveryOrderStores | internal/budget/tasks.go:353-398 | however the flushers finish what they took, by any writes, failures and flags put back, a clean task ends dirty or stored if and only if a write of it had already failed, or every record of it in flight carries its totals and, with none in flight, they are stored already |
| TaskStore.StaleRecordCanLandLast | internal/budget/tasks.go:353-398 | any record in flight of a clean task with no failed write can be the one that stays in the store |
| TaskStore.TwoFlushersLoseATotal | internal/budget/tasks.go:347-363 | two settlements flushed at once can end with the older total stored, the newer one in memory and the task clean |
| Governor.BudgetManager.CheckBudgetDetailed | internal/budget/manager.go:443-555 | a check leaves the memory, gives the decision and sends the alerts that `DecisionLaws.ManagerAnswers`, `ManagerLeaves` and `CheckSends` tell, and reports whether it discovered the agent |
| DecisionLaws.ManagerAnswers | internal/budget/manager.go:443-555 | kill for an agent that is not live; for a live one the cross-agent refusal exactly when that budget, its period looked at, has no room; kill for a runaway; otherwise what the agent's policy says of its spend, its period looked at |
| DecisionLaws.CheckAnswers | internal/budget/manager.go:515-822 | past a positive limit downgrade, alert and kill each exactly when the policy says so, and reject for every other word; within it downgrade exactly when the positive downgrade percentage is reached, alert exactly when not and some threshold lies above the current and not above the projected percentage, and allow otherwise |
| DecisionLaws.CheckRefuses | internal/budget/manager.go:464-513 | a killed agent and a runaway are answered kill, and the cross-agent refusal is passed on |
| DecisionLaws.CheckLeaves | internal/budget/manager.go:443-555 | a check moves no money; it kills exactly a runaway and an agent past the limit of a kill policy, with that reason, and marks what it changes |
| DecisionLaws.CheckSends | internal/budget/manager.go:491-527 | word of a passed limit with what was decided, of a runaway with its requests, of a kill with its reason, and nothing else |
| DecisionLaws.ManagerLeaves | internal/budget/manager.go:443-489 | a check changes no other agent and no policy; a period that lasts goes on and a lapsed one starts now, for the agent and, if it is live, for all agents |
| DecisionLaws.RunawayMeans | internal/budget/manager.go:824-840 | a request is a runaway exactly when detection is on, with a positive number and window, and with it more than that number came in the window of so many seconds that ends now |
| DecisionLaws.PercentageMeans | internal/budget/manager.go:910-918 | a percentage of a positive limit is a hundredth of it in dollars, and zero without limit or spend |
| Governor.BudgetManager.AgentLocked | internal/budget/manager.go:849-893 | the agent is found or created and known, and its lapsed period restarted, before anything is decided |
| Governor.BudgetManager.RecordSpend | internal/budget/manager.go:558-622 | one cost is added to the agent and to the cross-agent total, and the thresholds reported are those `PeriodLaws` tells |
| DecisionLaws.ManagerRecords | internal/budget/manager.go:558-586 | a cost, never negative, is added to its agent's spend and to the cross-agent spend, their periods looked at, and to no other |
| PeriodLaws.NewPeriodFiresAfresh | internal/budget/manager.go:878-893 | a charge at or after the period's end fires exactly the thresholds its own cost passes, each once, whatever had fired before |
| PeriodLaws.ResetFiresAfresh | internal/budget/manager.go:1450-1474 | so does a charge after a reset |
| PeriodLaws.EveryPeriodAlertsExactly | internal/budget/manager.go:558-622 | over any run under one policy, through rollovers, resets and starts, at every moment the spend is what was charged since the period began and the alerts sent since then are exactly the thresholds it passed, each once |
| PeriodLaws.NewAgentAlertsExactly | internal/budget/manager.go:849-864 | from a new agent on |
| PeriodLaws.ManagerAlertsExactly | internal/budget/manager.go:558-622 | and for each agent through any interleaving of calls for any agents |
| PeriodLaws.PeriodsLast | internal/budget/manager.go:895-908 | an hour, seven days, a calendar month, and a day for every other word |
| Governor.BudgetManager.FireThresholds | internal/budget/manager.go:583-607 | walking the list marks exactly the thresholds that fire, in list order |
| Governor.BudgetManager.ShouldAlertThreshold | internal/budget/manager.go:931-944 | true exactly when some threshold lies above the current and not above the projected percentage |
| Governor.BudgetManager.KillAgent | internal/budget/manager.go:679-698 | the agent is killed with the manual reason, found or created, and marked dirty |
| DecisionLaws.KillAndEnable | internal/budget/manager.go:679-717 | killing sets the kill and its manual reason, enabling clears both; either marks the agent seen now, keeps its spend, period, thresholds and window, and touches no other agent |
| Governor.BudgetManager.EnableAgent | internal/budget/manager.go:701-717 | kill and reason are cleared, spend, period and fired thresholds stay |
| Governor.BudgetManager.ResetBudget | internal/budget/manager.go:1450-1474 | the period starts again now; only a budget kill is cleared |
| DecisionLaws.ResetEmpties | internal/budget/manager.go:1450-1474 | afterwards nothing is spent, fired or registered, a period of the policy's length starts now, and the agent is killed exactly if it was for another reason than its budget |
| Governor.BudgetManager.UpdateBudget | internal/budget/manager.go:1416-1447 | a negative limit or a percentage outside 0 to 100 changes nothing; otherwise only the policy and a lapsed period change, fired thresholds stay |
| DecisionLaws.UpdateSets | internal/budget/manager.go:1416-1447 | a policy outside those bounds is refused whole; one within them is the agent's from now on, and spend, thresholds, window and kill are as any look at the period leaves them |
| AgentLaws.AlertsOfPeriod | internal/budget/manager.go:583-607 | over any charges of one period and policy the alerts are exactly the thresholds t with start% < t <= end% not fired before, each once, and the spend is the sum |
| AgentLaws.EveryThresholdPassedFires | internal/budget/manager.go:583-607 | with nothing fired ahead of the spend, as after a period start or a load, every threshold passed fires exactly once |
| AgentLaws.SplittingIrrelevant | internal/budget/manager.go:583-607 | two ways of splitting the same total fire the same thresholds and leave the same state |
| AgentLaws.RestartKeepsAlerts | internal/budget/manager.go:232-293 | a flushed agent started again, its declared policy put back if it has one, fires the same later alerts, whatever is charged, if and only if the same thresholds are still ahead of its spend and unfired and, if there are any, its limit is the same |
| AgentLaws.KeptPolicyKeepsAlerts | internal/budget/manager.go:1014-1023 | when the start keeps the policy, that is so if and only if no threshold was fired ahead of the spend |
| AgentLaws.RestartKeepsPolicy | internal/budget/manager.go:270-276 | a start keeps the policy an agent ran under if and only if it is the one declared for it, or none is declared and no default replaces a field |
| AgentLaws.DeclaredLimitAlerts | internal/budget/manager.go:232-293 | declared with a limit of 10 and run under 100 with nothing fired ahead, an agent alerts at 6 only after the start |
| AgentLaws.RaisedLimitCounterexample | internal/budget/manager.go:1433-1445 | raising a limit within a period reaches a state where one was |
| AgentLaws.OnlyChargesAlert | internal/budget/manager.go:443-622 | checks, kills, enables and views between charges change neither which alerts are sent nor the spend |
| AgentLaws.EachThresholdOnce | internal/budget/manager.go:583-607 | over any such calls within one period and policy each threshold passed and not fired before is alerted exactly once, and no other |
| GovernorLaws.EachAgentRunsAlone | internal/budget/manager.go:443-717 | however checks, charges, kills, enables, resets, policy changes and views of many agents, and deletions and renames of others, interleave, each agent's policy and state are what its own calls alone make of them |
| GovernorLaws.NewAgentRunsAlone | internal/budget/manager.go:842-864 | so are those of an agent first met on the way, from the state its first call gives it |
| GovernorLaws.DeletionForgetsKill | internal/budget/manager.go:1159-1218 | a deleted agent's name starts afresh, unkilled, which is why those laws except deletions of the agent itself |
| GovernorLaws.OthersUntouched | internal/budget/manager.go:842-864 | a call for one agent leaves every other agent's policy and state as they were |
| GovernorLaws.KilledAgentsStayOut | internal/budget/manager.go:464-474 | after a manual or runaway kill, through any such calls short of enabling, deleting or renaming the agent itself, its next check answers kill |
| GovernorLaws.AlertsAreExactlyOnce | internal/budget/manager.go:558-622 | over any interleaving of such calls, while one agent's period and policy last, the alerts sent for it are exactly the thresholds its spend passed, each once |
| SpendLaws.ForwardedExactly | internal/budget/manager.go:443-555 | a check lets a request through if and only if the agent is live, the cross-agent budget admits it, it is no runaway, and it fits a positive limit or the policy only downgrades or alerts |
| SpendLaws.ForwardedWithinCap | internal/budget/manager.go:500-513 | after any run under reject or kill policies of at most a cap, those declared for its starts included, a request let through leaves spend and its estimate together within the cap |
| SpendLaws.SpendStaysNearCap | internal/budget/manager.go:443-622 | over any such run, rollovers, resets and starts included, the spend passes the larger of its start and the cap by no more than what was charged after the last request let through |
| SpendLaws.StartLoosensPolicy | internal/budget/manager.go:270-276 | run under a reject limit of 5 and declared with an alert limit of 100, an agent is let through with an estimate of 50 after a start, and not before |
| SpendLaws.OverLimitKillsThePeriod | internal/budget/manager.go:784-822 | under a kill policy the first request over the limit is refused, and so is every later one until the period ends, short of enabling or resetting |
| SpendLaws.KillAnswersThePeriod | internal/budget/manager.go:464-474 | while a killed agent's period lasts its every check answers kill |
| GovernorLaws.AgentSpendNearCap | internal/budget/manager.go:443-622 | the spend bound holds over any interleaving of calls for any agents, deletions and renames of the agent itself apart |
| GovernorLaws.ForwardedWithinGlobal | internal/budget/manager.go:476-489 | a request is let through only if the cross-agent spend, its period looked at, leaves room for its estimate |
| GovernorLaws.GlobalSpendNearLimit | internal/budget/manager.go:866-876 | over any interleaving the cross-agent spend passes the larger of its start and its limit by no more than what all agents were charged after the last request let through |
| GovernorLaws.BudgetKilledStayOut | internal/budget/manager.go:784-822 | a budget kill holds against any such interleaving while the agent's period lasts, short of enabling or resetting the agent |
| AgentLaws.PolicyRoundTrip | internal/storage/sqlite.go:582-602 | the store gives a policy back unchanged if and only if it has no field a default replaces |
| AgentLaws.StoreFillsIn | internal/storage/sqlite.go:582-602 | an empty field of a stored policy reads back as a day, an alert past the limit, a downgrade at 80 percent, alerts at 50, 80 and 100; every other as it was |
| AgentLaws.LoadedKillEnds | internal/budget/manager.go:1309-1335 | a loaded agent is killed unless its status is empty or active, and the kill ends with its period exactly for budget_exceeded, or killed with a kill policy's positive limit used up |
| AgentLaws.StatusIgnoresCase | internal/budget/manager.go:1309-1312 | ASCII letters of a status are lowered one by one before it is compared |
| AgentLaws.OtherLettersLower | internal/budget/manager.go:1309-1312 | so are the two letters beyond ASCII that lower to ASCII |
| AgentLaws.LegacyKillNeverClears | internal/budget/manager.go:878-893 | no rollover and no reset clears a kill without a reason, even of an over-limit kill policy |
| AgentLaws.RestartKeepsKill | internal/budget/manager.go:1309-1345 | flush, seeding and load keep kill and reason; a kill without a reason gains one |
| AgentLaws.KillIsSticky | internal/budget/manager.go:464-474 | a manual or runaway kill survives every rollover, reset, policy change and restart until the agent is enabled, and every check on the way answers kill |
| AgentLaws.BudgetKillLastsThePeriod | internal/budget/manager.go:885-893 | a budget kill stays until its period ends through any other calls, and the next rollover or reset clears it |
| AgentLaws.RunStaysReasoned | internal/budget/manager.go:679-717 | killed if and only if a reason is set, in every state a run reaches from one where that holds |
| AgentLaws.LoadedReasoned | internal/budget/manager.go:1309-1335 | a loaded row gives that if and only if its status, trimmed and lowered, is one of the six known words |
| AgentLaws.WindowIsSurvivors | internal/budget/manager.go:824-840 | under any clock the pruned window is the history filtered by every later registration |
| AgentLaws.WindowOfRun | internal/budget/manager.go:824-893 | in every run the window is what pruning makes of the requests registered since the last rollover, reset or restart |
| AgentLaws.DetectionOverRuns | internal/budget/manager.go:824-840 | after any run under a clock that does not step back, a check of a live agent the cross-agent budget admits detects a runaway if and only if more than the allowed number of requests registered since the window was cleared, this one included, lie in the window that ends now |
| AgentLaws.RequestWindow.Prune | internal/budget/manager.go:829-836 | filtering the buffer over itself leaves exactly the times at or after the start, in order |
| AgentLaws.RequestWindow.RegisterRequest | internal/budget/manager.go:824-840 | the buffer then holds the pruned window and the new time, and detection says whether it holds too many |
| AgentStore.RunKeepsInStep | internal/budget/manager.go:1063-1078 | in every interleaving of requests, flush steps and deletions each row in the store, and each row still to be written, names an agent in memory |
| AgentStore.NoResurrection | internal/budget/manager.go:1159-1218 | once a deletion commits, nothing brings the agent's row back before a request discovers the agent again |
| AgentStore.ForgottenStaysForgotten | internal/budget/manager.go:1229-1247 | an agent unknown to memory has no row and gets none until discovered |
| AgentStore.OnlyRenamesStrand | internal/budget/manager.go:1063-1247 | no step but a rename's leaves the store with a row, or a row on its way, whose agent is not in memory |
| AgentStore.RenameEndsInStep | internal/budget/manager.go:1081-1145 | a rename the store takes, with any requests, flushes and deletions between its halves, ends with rows and memory in step if and only if its last step finds the new name in memory and the old one not about to be written |
| AgentStore.RefusedRenameEndsInStep | internal/budget/manager.go:1124-1140 | a rename the store refuses ends in step, whatever came before and after the refusal, if and only if the way back finds no row of the new name, written or about to be |
| AgentStore.UndisturbedRename | internal/budget/manager.go:1081-1145 | a rename that meets no flush holding the old name, and between whose steps no flush begins and neither name is deleted or discovered, ends in step whatever the store says |
| AgentStore.RenameCanResurrect | internal/budget/manager.go:1081-1145 | begin a flush, rename, write: the old name is a row and not an agent |
| AgentStore.RefusedRenameCanStrand | internal/budget/manager.go:1102-1140 | a flush of the new name between the halves makes the store refuse, and the way back leaves the new name's row to nobody |
| AgentStore.DeletionBetweenHalves | internal/budget/manager.go:1121-1124 | a deletion of the new name between the halves is undone by the store's half |
| AgentStore.TakeRecords | internal/budget/manager.go:1229-1247 | one pass rolls every period, cleans every agent and takes the row of exactly the dirty ones |
| AgentStore.WriteRows | internal/budget/manager.go:1071-1077 | rows are replaced one at a time until a write fails; it succeeds exactly when every write does, and then every record is stored |
| AgentStore.AgentPersistence.SnapshotDirtyAgentRecords | internal/budget/manager.go:1229-1247 | the rows taken and the cleaned states are those of one moment |
| AgentStore.AgentPersistence.Flush | internal/budget/manager.go:1063-1078 | some of the dirty agent rows are stored, all exactly when every write succeeds; only then are the tasks flushed, each ending dirty or stored; task totals never change |
| AgentStore.AgentPersistence.DeleteAgent | internal/budget/manager.go:1159-1218 | a configured or unknown agent or a failing store changes nothing; otherwise memory, row and task cap go, no task names the agent any more, nor does a task row of a stored agent, and every task is dirty or stored |
| AgentStore.EveryFlushSavesAll | internal/budget/manager.go:1071-1076 | whatever order a flush writes in, every agent ends marked or with the row it should have if and only if all rows were right before, or the writes of all dirty agents succeed and all other rows were right |
| AgentStore.FlushSavesAll | internal/budget/manager.go:1071-1076 | for one flush: if and only if each agent was written or had its row before; what a failing flush did not reach is not marked again |
| AgentStore.OneFailedWriteForgets | internal/budget/manager.go:1071-1076 | one agent that spent a dollar and one write that fails: the dollar is neither stored nor marked |
| AgentStore.FlushedAgentsReload | internal/budget/manager.go:993-1028 | after a flush whose writes succeed a fresh manager, whatever policy is declared, loads each dirty agent with its spend, killed if and only if it was |
| RowLaws.CallMarksItsChanges | internal/budget/manager.go:443-717 | after any call an agent is marked, or its row should say what it should have said, when it was last seen apart; no call takes a mark away |
| RowLaws.RunIsSafe | internal/budget/manager.go:1063-1078 | in every interleaving of calls, one flusher's snapshot and writes, and deletions, each agent is at every step marked, or on its way with what its row should say, or stored with it, or dropped by a failed flush and unmarked since |
| RowLaws.RowsStayCurrent | internal/budget/manager.go:1229-1247 | with no failed write, whenever no flush is under way every agent is marked or its row says what it should |
| Billing.BudgetTrackingBody.Read | internal/proxy/proxy.go:427-440 | bytes are taken in; the first end of body bills everything that arrived, once, to agent, task and sink; before it nothing is billed and no hold or task is touched |
| Billing.BudgetTrackingBody.Close | internal/proxy/proxy.go:442-447 | closing bills what arrived if the end of body did not, or drops the hold of an unbillable response, and never either twice |
| Billing.BudgetTrackingBody.Finalize | internal/proxy/proxy.go:449-486 | the first call on a status from 200 to 399 with a model enqueues one record, whose price is `Billing.PricedAt` the usage told, and adds that cost to the agent's, the cross-agent and the task's spend; on any other status it drops the hold; later calls do nothing |
| Billing.CostIsPriced | internal/pricing/pricing.go:101-120 | a million times the cost is each token count, none negative, times its own price of the model, and zero for an unknown model |
| Billing.UpstreamTells | internal/pricing/streaming.go:38-56 | a streamed response is billed the last positive counts its lines report, or an estimate from their content, or one token each way; one read whole, its usage field, or a token each way for every four bytes |
| Billing.BillTranslated | internal/proxy/provider_routing.go:233-270 | the translated path enqueues and charges a record priced the same way, only for statuses 200 to 299 it can translate, and otherwise leaves the hold for the deferred release |
| Billing.Gate.Admit | internal/proxy/proxy.go:236-335 | emergency stop answers 503 and touches nothing; otherwise the answer obeys the check made at the price of a quarter of the body as input of the model asked for: 429 when it kills or rejects, 500 or 429 when a downgrade cannot be rewritten or is over and unchanged, and on it goes as the cheaper model or as asked; a hold exists exactly when a request that names a task goes on |
| Billing.Gate.Relay | internal/proxy/proxy.go:305-335 | whatever the provider answers, the hold is gone at the end: settled at the billed cost, once, or released unbilled |
| Billing.Gate.Serve | internal/proxy/proxy.go:236-335 | one request from end to end: its answer obeys the check; a refused one enqueues nothing; a forwarded one enqueues one record, priced at the usage told, exactly for statuses 200 to 399 with a model, charges it, and leaves no hold |
| GateLaws.ForwardedExactly | internal/proxy/proxy.go:236-305 | a request goes on as a model exactly when there is no emergency, the check neither kills nor rejects, it is the model asked for or under a downgrade the rewritten one, or an unchanged one that is not over, and a named task's cap, read off the tables, has room for the price of that model |
| GateLaws.RefusedExactly | internal/proxy/proxy.go:240-303 | every other request is answered 503 in an emergency, 500 when a downgrade cannot be rewritten, and otherwise 429 |
| GateLaws.HeldExactly | internal/proxy/proxy.go:291-312 | a forwarded request that names a task adds the price of the model sent to what that task holds; any other answer moves no task's money |
| GateLaws.ForwardedWithinCap | internal/proxy/proxy.go:259-303 | after any calls under reject or kill policies of at most a cap, a forwarded request leaves its agent's spend and its estimate together within the cap |
| GateLaws.ForwardedWithinGlobal | internal/proxy/proxy.go:259-303 | after any calls a forwarded request leaves the cross-agent spend and its estimate together within the limit |
| GateLaws.OverLimitIsNeverSentAsAsked | internal/proxy/proxy.go:270-287 | after any calls under downgrade policies a request that would pass the limit goes on as the model it was rewritten to or not at all |
| GateLaws.KilledAnswered | internal/proxy/proxy.go:264-266 | after a manual or runaway kill, through any calls short of enabling, deleting or renaming the agent, its next request is answered 429 |
| GateLaws.BudgetKilledAnswered | internal/proxy/proxy.go:264-266 | so is that of an agent killed for its budget while its period lasts |
| Billing.NoHoldLeaks | internal/proxy/proxy.go:305-311 | after such a request its task has reserved and in flight what it had before, and no other task has changed |
| Money.RunBalances | internal/proxy/proxy.go:449-486 | at every point of every interleaving each task's spend with what was settled on a dropped hold, and while no period lapses each agent's and the cross-agent spend, have grown by what the sink received plus what is on its way there |
| Money.Conservation | internal/proxy/proxy.go:449-486 | between two moments with no billing under way they have grown by exactly the sink's records |
| Money.TaskGetsItsBills | internal/budget/tasks.go:181-205 | between two such moments a task's own spend has grown by the sink's records that name it if and only if no such record that cost anything was settled on a hold already gone |
| Money.BilledBeforeRelease | internal/proxy/proxy.go:305-311 | when each billing starts on an outstanding hold of its own and no hold is released while a billing still has to settle it, every task's spend grows by exactly the sink's records that name it, through any rollover |
| Money.LateBillingLosesMoney | internal/budget/tasks.go:92-99 | reserve, record, release, settle: the sink has the cost and the task does not |
| Money.AgentsAddUp | internal/budget/manager.go:558-586 | over any run without rollover or reset the agents' growth adds up to the cross-agent growth and to what the sink received |
| Money.SinkMatchesBudgets | internal/pricing/pricing.go:101-120 | with a validated price table the costs handed to the sink add up, as they stand, to what agents and the cross-agent budget grew by, and tasks when bodies are billed before release |
| CostWriter.WorkKeepsCosts | internal/storage/writer.go:23-52 | through any handing over, dropping, saving and failing, what is stored, lost, buffered and being saved costs together what was handed over |
| CostWriter.StoreMatchesBudgets | internal/storage/writer.go:23-52 | once the writer has drained, the stored costs are never more than what the budgets grew by, and exactly that if and only if no dropped or unsaved record had cost anything |
| CostWriter.FullBufferDrops | internal/storage/writer.go:41-52 | two records handed to a writer of one place before it wakes: the second is never stored |
| Sse.SSEAccumulator.ProcessLine | internal/pricing/streaming.go:58-83 | a line's usage replaces positive counts, or its content length is added; other lines change nothing |
| Sse.SSEAccumulator.Write | internal/pricing/streaming.go:27-36 | a chunk is fed byte by byte, whole lines counted and the rest kept |
| Sse.SSEAccumulator.FinalUsage | internal/pricing/streaming.go:40-56 | the remaining line is counted; usage found, or an estimate from content, or one token each way |
| Sse.ChunkingIrrelevant | internal/pricing/streaming.go:27-36 | however a stream is cut into chunks the accumulator ends in one state |
| Sse.StreamTells | internal/pricing/streaming.go:38-83 | the usage reported is the last positive input and the last positive output count of the stream's lines; without any, their content at a token for every four bytes, as output; without content, one token each way |
| Sse.BufferTells | internal/pricing/pricing.go:150-190 | the buffered form reports the same of the lines before the first too long, but estimates the whole body when they tell nothing |
| Sse.PayloadMeans | internal/pricing/streaming.go:58-68 | a line counts when it starts with data: and what follows, trimmed, is neither empty nor the end mark |
| Sse.AccumulateStreamingUsage | internal/pricing/pricing.go:150-190 | the buffered form reports the usage of the lines the scanner yields |
| Sse.CountsOfBothForms | internal/pricing/pricing.go:154-177 | the accumulator counts every line of the stream, the buffered form exactly the lines before the first of 4 MiB or more |
| Sse.AccumulatorRefinesBuffered | internal/pricing/streaming.go:38-56 | with no such line the two report the same if and only if usage or content was found or the body is 1 to 7 bytes long |
| Sse.BlankStreamDiffers | internal/pricing/streaming.go:55 | eight blank lines: one token each way against two |
| Sse.UsageIsStable | internal/pricing/streaming.go:40-56 | asking for the usage again changes nothing |
| SemVer.ParseNumericIdentifier | internal/upgrade/version.go:69-89 | accepts exactly 1 to 9 digits without a leading zero, with their value |
| SemVer.ValidatePrerelease | internal/upgrade/version.go:92-115 | the loop accepts what `SemVer.PrereleaseMeans` tells |
| SemVer.PrereleaseMeans | internal/upgrade/version.go:92-115 | exactly identifiers of digits, letters and hyphens joined by dots, none empty and no numeral with a leading zero (section 9 of Semantic Versioning 2.0.0) |
| SemVer.ParseVersion | internal/upgrade/version.go:30-57 | parses one optional v, three numbers and an optional prerelease within 64 characters, and nothing else |
| SemVer.TagOfParsedTag | internal/upgrade/version.go:61-66 | printing what a release tag parsed to gives the tag back |
| SemVer.ParsedTagOfVersion | internal/upgrade/version.go:124-129 | a version's tag parses back to it if and only if its numbers are below 10^9, its prerelease is valid and the tag fits 64 characters |
| SemVer.ParsedIsWellFormed | internal/upgrade/version.go:30-57 | every version the parser returns is of that kind |
| SemVer.ComparePrerelease | internal/upgrade/version.go:170-202 | the loop over both identifier lists finds their order at the first that differ, or by length |
| SemVer.CompareAntisymmetric | internal/upgrade/version.go:143-153 | swapping two versions flips the sign, and the result is 0 only for equal versions, on all pairs |
| SemVer.CompareTransitive | internal/upgrade/version.go:143-153 | the order is transitive, strictly where either step is strict, on all triples |
| SemVer.CompareAgreesWithSemVer | internal/upgrade/version.go:166-210 | on parsed versions the order is the precedence of section 11 if and only if the first differing identifiers are not a pair a long numeral spoils |
| SemVer.ShortNumericsAgree | internal/upgrade/version.go:204-210 | with numeric identifiers of at most nine digits it always is |
| SemVer.LongNumericsMisordered | internal/upgrade/version.go:204-210 | a longer numeral with a lower first digit sorts before a shorter one it should follow |
| SemVer.TenDigitCounterexample | internal/upgrade/version.go:204-210 | 1.0.0-10000000000 sorts before 1.0.0-9999999999 |
| Checksums.ParseChecksums | internal/upgrade/artifact.go:222-251 | the strict reading of the document, line by line, failing on the first line that is not an entry |
| Checksums.ParsedDocument | internal/upgrade/artifact.go:222-251 | on success no line is malformed, the map lists the entry of every non-blank line and nothing else, and has 1 to 512 entries |
| Checksums.LineMeans | internal/upgrade/artifact.go:254-294 | a line is an entry exactly when it is two words, 64 hexadecimal digits and a name of 1 to 128 bytes without slashes or NUL, not . or .., after which the digits are lowered and one star before the name is dropped |
| Checksums.RenderParses | internal/upgrade/artifact.go:214-283 | parsing undoes rendering: 1 to 512 valid entries in any order come back name for name and digest for digest |
| Checksums.RenderedLineParses | internal/upgrade/artifact.go:254-283 | one printed line reads back as its entry, the digest lowered |
| Checksums.MatchIsEquality | internal/upgrade/artifact.go:296-309 | comparing a parsed digest with a computed one is equality of the two |
| Applier.Applier.Apply | internal/upgrade/apply.go:125-208 | one run under any failures and a death at any step: the request is consumed first, the install path changes exactly when a valid request passes every check and reaches the swap, then it holds the whole extracted binary with the old one kept aside, and a failure is recorded only when it did not change |
| Applier.Applier.Upgrade | internal/upgrade/apply.go:149-168 | nothing is touched for a target that is not newer, an unsafe install path, a missing digest or archive |
| Applier.Applier.Swap | internal/upgrade/apply.go:170-208 | from the open archive on, the swap is reached exactly when the archive is genuine and no step fails |
| Applier.Applier.Replace | internal/upgrade/apply.go:176-207 | the rollback copy comes before the swap, the swap is whole, and the outcome recorded matches what happened |
| Applier.Applier.ExtractVerifiedBinary | internal/upgrade/apply.go:300-340 | a binary is kept exactly when the bytes it came from hash to the published digest and it reports the target; nothing is left behind otherwise |
| Applier.Applier.Refuse | internal/upgrade/apply.go:212-224 | a refusal writes a failed outcome and nothing else |
| UpgradeHistory.EveryChangeIsVerified | internal/upgrade/apply.go:125-208 | a run changes the install path only to a stable release strictly newer than itself, listed in checksums it fetched itself, under the name of its platform's asset, with the very hash of the bytes it read, whose binary reports that release |
| UpgradeHistory.AssetNamed | internal/upgrade/paths.go:102-110 | that name is oberwatch_, the tag without its v, _linux_ and amd64 or arm64, .tar.gz |
| UpgradeHistory.RequestMeans | internal/upgrade/handoff.go:125-168 | a request asks for a version exactly when it decodes, carries a time, its tag, trimmed, is that stable version's tag within 64 characters, and what it came from is blank or parses |
| UpgradeHistory.OutcomesAreHonest | internal/upgrade/apply.go:187-224 | the outcome left says failed if and only if nothing was installed, restart required if and only if something was and the restart failed, and otherwise names what the install path now reports and where the request came from |
| UpgradeHistory.RollbackIsExact | internal/upgrade/apply.go:444-479 | after a swap the copy is the replaced binary if and only if that fits 256 MiB |
| UpgradeHistory.RollbackThroughHistory | internal/upgrade/apply.go:176-179 | through any history, since extraction is bounded, a swap's copy is whole if and only if the replaced binary came from an earlier upgrade or the first one fits |
| UpgradeHistory.InstallIsAlwaysVerified | internal/upgrade/apply.go:125-208 | through any history of runs, crashes and rewritten requests the install path holds the first binary or the whole binary of an archive some run verified |
| UpgradeHistory.VersionsOnlyGrow | internal/upgrade/apply.go:149-151 | through any history, a different binary at the install path reports a strictly newer version than the first |
| UpgradeHistory.OneRunPerRequest | internal/upgrade/apply.go:142-147 | between two runs that take up a request the service must have written one |
| UpgradeHistory.OneSwapPerRequest | internal/upgrade/apply.go:142-147 | so one request replaces the binary at most once |
| Dispatcher.Counters.Deliver | internal/alert/dispatcher.go:319-345 | at most four attempts, each after the first only because the one before was answered 408, 429 or 500 and above or could not be sent, with nothing cancelled and the wait run out; delivered grows by one exactly for an answer from 200 to 299, failed by one otherwise, and retries by the attempts after the first |
| Dispatcher.Backoff | internal/alert/dispatcher.go:347-359 | the delay in the machine's wrapped arithmetic |
| Dispatcher.SmallBaseBacksOff | internal/alert/dispatcher.go:347-359 | for a base below 2^62 ns it is min(base * 2^(n-1), 8 s), for every n |
| Dispatcher.ScheduleIsExponential | internal/alert/dispatcher.go:347-359 | the three retries use that schedule if and only if the base is below 2^62 ns |
| Dispatcher.DefaultSchedule | internal/alert/dispatcher.go:34 | with the program's base the retries wait half a second, one and two |
| Dispatcher.HugeBaseWraps | internal/alert/dispatcher.go:347-359 | with a base of 2^62 ns the second would wait a negative time |
| Dispatcher.StepKeepsBalance | internal/alert/dispatcher.go:233-317 | each atomic step of a caller or worker keeps jobs in order, whole and counted once, and every counter off by exactly what is in flight |
| Dispatcher.RunKeepsBalance | internal/alert/dispatcher.go:233-317 | so does every interleaving |
| Dispatcher.CountersAddUp | internal/alert/dispatcher.go:214-317 | accepted and unencodable alerts never exceed delivered, failed and pending together, and equal them if and only if no call is half done and no worker is between counting and settling; then pending is what is queued or being delivered |
| Dispatcher.ClosedAcceptsNoMore | internal/alert/dispatcher.go:274-288 | after Close only calls already past its check can still be accepted |
| Dispatcher.LeftoversStay | internal/alert/dispatcher.go:272-288 | once the workers are gone what is queued stays queued |
| Dispatcher.DrainAfterClose | internal/alert/dispatcher.go:254-270 | then a drain can finish if and only if the queue is empty and no call is half way; with a leftover, never |
| TimeKey.KeyOfStored | internal/storage/sqlite.go:256-260 | the key of a stored timestamp is the fixed-width form of the instant it was stored for |
| TimeKey.StoredReads | internal/storage/sqlite.go:245 | stored text is read back as its instant, field by field; a whole second has no point, and a fraction ends in no zero |
| TimeKey.EarlierIsBefore | internal/storage/sqlite.go:245 | comparing calendar fields is comparing elapsed time, leap years included |
| TimeKey.CalendarCounts | internal/storage/sqlite.go:245 | that time has a leap day every fourth year but for centuries but for every fourth of those, and the calendar's months |
| TimeKey.KeyOrderIsTime | internal/storage/sqlite.go:256-298 | byte order of keys is time order, and equal keys are equal instants |
| TimeKey.FilterIsExact | internal/storage/sqlite.go:277-284 | the From/To filter keeps exactly the rows between the bounds, both included |
| TimeKey.RawOrderIsTime | internal/storage/sqlite.go:245 | without the key, stored text orders two instants rightly if and only if neither fraction of the same second starts the other |
| TimeKey.NoonSortsLate | internal/storage/sqlite.go:501-507 | half a second past noon sorts before noon as stored text |
| CostSeries.BuildStackedSeries | dashboard/svelte/src/lib/costs.ts:190-235 | one column for each bucket a usable row names, in time order; one dataset for each agent, dearest first and ties by locale, with one cell a column; each cell the cost of its agent's rows in its bucket |
| CostSeries.PlaceMeans | dashboard/svelte/src/lib/costs.ts:140-208 | a row belongs to its trimmed agent name, or unknown for a blank one, and to its trimmed bucket, or on a day chart the viewer's day of it; it has no place if the bucket is blank or no point in time |
| CostSeries.CollectRows | dashboard/svelte/src/lib/costs.ts:198-217 | the single pass collects each distinct bucket and agent once, and the cost of every agent in every bucket |
| CostSeries.SortedSorts | dashboard/svelte/src/lib/costs.ts:63-75 | sorting keeps the elements and puts them in order |
| CostSeries.ChartConservesCost | dashboard/svelte/src/lib/costs.ts:184-189 | all cells together are the cost of the rows with a usable bucket, and stacks are ranked by the height they show |
| CostSeries.DatasetTotal | dashboard/svelte/src/lib/costs.ts:216-222 | an agent's cells add up to what its usable rows cost |
| CostSeries.DaysAreSumsOfHours | dashboard/svelte/src/lib/costs.ts:128-151 | for any calendar an agent's day cell is the sum of its hour cells that fall on that day |
| CostSeries.DayChartFoldsHourChart | dashboard/svelte/src/lib/costs.ts:190-235 | so the day chart is the hour chart folded, with the same total |
| Text.TrimSpaceIsTight | internal/upgrade/artifact.go:229 | trimmed text neither starts nor ends with whitespace |
| Text.TrimTakesSpace | internal/upgrade/artifact.go:229 | trimming takes whitespace runes off both ends and nothing else |
| Text.SpacesAreWhite | internal/upgrade/artifact.go:229 | a code point is whitespace exactly if it has Unicode's White_Space property |
| Text.SplitJoin | internal/upgrade/version.go:34-45 | splitting undoes joining parts free of the separator |
| Text.JoinSplit | internal/upgrade/version.go:34-45 | joining undoes splitting |
| Text.LexTotal | internal/upgrade/version.go:195-201 | byte order is total |
| Text.LexTransitive | internal/upgrade/version.go:195-201 | and transitive |
| Text.DecimalOrder | internal/storage/sqlite.go:256-260 | numerals of one width compare like their values |

## Left out

- JSON decoding of requests, responses, usage fields and delta content: uninterpreted functions of the bytes; the handoff request is modelled after decoding, with its field checks.
- Floating-point rounding: dollars and percentages are reals.
- Alert texts, payload encoding, redaction and log lines; the dispatcher's suppression of repeated thresholds.
- HTTP handlers, headers, routing, agent identification, model rewriting for downgrades: the gate takes the rewrite's result as a parameter.
- Views that only report (`GetTask`, `ListTasks`, `Snapshot`, `ListBudgets`): the period rollover some of them cause is the `ViewE` event of the kill laws.
- The calendar month and the local day are arbitrary functions; leap seconds do not exist in stored times.
- The SQL engine, transactions and migrations: a map of rows whose writes may fail. Rows carry no first-seen time for agents.
- Grouped cost queries, retention and the alert history query, which compare stored text directly; `TimeKey.RawOrderIsTime` says when that goes wrong.
- gzip, tar, SHA-256, systemd, symlink and permission checks: functions of the bytes read, or outcomes of the run. The archive a run hashes is the bytes it read, which ends at the read limit.
- Crashes inside an atomic file write: the write happens or does not.
- Host-language sorting is modelled by a stable insertion sort; locale comparison is any order of its type.
- Unicode beyond whitespace and the two letters that lower to ASCII: text is bytes.
- The flush a rename ends with, and the flush of an agent right after a check, are ordinary flushes of `AgentStore.Step`. A rename's change of task caps and of the agent named on tasks is not in that machine.
- The clock is read before the lock is taken in some calls; here each call carries its time, and only the theorems that say so assume it does not step back.
- `Governor.BudgetManager` keeps the runaway window as a value; `AgentLaws.RequestWindow` is its in-place form, proved against the same function.
- `AgentStore.Step` follows which agents have rows, with renames and any number of flushers; `RowLaws` follows what the rows say, with one flusher and no renames, last-seen times apart (a check moves them without marking the agent).
- A start that finds no flushed row: the start laws begin from a row just flushed, and `RowLaws` says when rows are current.
- Downgrade chains in rows and declarations; handing a record to a writer already closed.
- Reservations are issued to one request each; that Go's once-guards serialise two racing calls on one reservation is taken as given.
