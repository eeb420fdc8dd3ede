# watchpost, verified

A Dafny model of watchpost, a small monitoring server: monitors are polled,
problems are confirmed, alerts behind a dead parent are suppressed, capacity is
forecast, and discovery proposes new monitors. The model follows the Python
code branch by branch and proves what its documentation promises, or exactly
what holds instead.

`dafny verify dfyconfig.toml` checks everything.

## What is modelled

**One monitor** (`MonitorStates`). The confirmation-count state machine is a
class proved against a pure step function, and the step function against an
independent reading of the whole history: the state is the verdict of the
latest window of results that has one.

**Dependencies** (`Slugs`, `Graphs`, `Configs`, `Loading`, `Networks`,
`Groups`). Slugs, references by name or slug, the coloured depth-first search
that rejects cycles, the root cause an outage is attributed to, and group
states. Loading succeeds exactly when slugs are unique, references are good and
the graph has no cycle; the finish order of the search is the topological rank
on which everything that walks the graph terminates.

**The alerting engine, run to completion** (`Engine`, `Schedulers`,
`EngineInduction`, `Logbooks`, `NoLostAlerts`, `Releases`, `AlertConditions`,
`RepeatedAlerts`, `Confirmations`, `EventLogs`, `EventOrder`,
`Counterexamples`). A check is an arbitrary oracle. The mutually recursive
`poll_once`, `_on_transition`, `_confirm_parents` and `_release_children` are
functions on a world (states, result rows, alert log, event log), and the class
`Scheduler`, with its mutable state objects and loops, is proved equal to them.
They terminate because the set of monitors that are not up with no failure
counted, joined with the polled monitor, never grows, an up transition takes
the monitor out of it, and confirming a parent lowers the dependency rank. On
top of that stand the exact conditions under which no alert is lost, none is
sent twice, and the events are recorded in order; the event table always holds
all state changes, and the alert log can be read off it.

**The alerting engine, interleaved** (`Interleavings`, `Discipline`,
`Behaviours`, `Notifications`, `Guarantees`, `SequentialRuns`, `Debts`,
`InterleavedAlerts`, `Replays`, `InterleavedConditions`, `LoneMonitors`,
`InterleavedRepeats`, `InterleavedConfirmations`, `EventFlights`, `Courses`). A
machine whose steps are the stretches of code between two `await`s: any number
of tasks, a lock per monitor, one semaphore, and a worker thread that writes
rows. Its properties hold in every reachable state of every interleaving. Left
to one task, the machine does exactly what the run-to-completion engine does.
No interleaving loses an alert that no run to completion loses: in every state
each unblocked problem is alerted or owed by a task in flight (`Debts`), and
each state change is in the event table or carried there by a task
(`EventFlights`). Interleavings do repeat alerts that no run to completion
repeats.

**Forecasting** (`Vectors`, `Fits`, `Forecasts`, `Series`). Hourly means, the
least-squares line, threshold crossings and the forecast made of them, over
exact reals.

**Discovery** (`Lockouts`, `LockoutGuarantees`, `LockoutTightness`,
`LockoutCoverage`, `Drafts`, `Proposals`, `ProposalGuarantees`, `Merging`). The
protocol by which any number of hosts share credentials without locking them
out and still try all they may, and the names and dependencies of proposed
monitors up to the configuration one gets by accepting all of them, which
loads.

## Where code and documentation disagree

- README.md:300-302 promises that dependents that still fail when their parent
  recovers are alerted then. That is false when a dependent needs two OKs to
  recover (the fresh poll may be the first of them: `SlowRecoveryLosesAlert`) and
  when the parent goes from DOWN to WARN, which releases nobody
  (`WarningLosesAlert`). The exact condition, on every network and for every choice
  of what each check may answer: no alert is lost if and only if every enabled
  monitor with an enabled parent recovers at its first OK and no enabled monitor
  with an enabled dependent may answer WARN (`NoLostAlertExactly`). It is the same
  over every interleaving (`NoLostAlertInterleaved`). If every check may answer
  WARN, that leaves the networks without dependencies (`NoLostAlertWithWarnings`).
- watchpost/rollup.py:6-10 wants one outage to produce one page. A parent that
  turns out to be up while it is being confirmed alerts its child, and the child's own
  transition then alerts it again: `OneOutageTwoAlerts`. With OK and FAIL answers no
  problem is sent twice in a row if and only if no enabled monitor depends on an
  enabled one (`NoRepeatedAlertInterleaved`): whatever the recovery counts, other
  polls can bring the parent up while the child waits to confirm it. So the
  scheduler's loops keep both promises, no alert lost and none repeated, only on
  sites without dependencies (`BothPromisesInterleaved`). If polls never overlap,
  recovery counts help: none is repeated if and only if every enabled monitor with an
  enabled dependent needs two OKs or more (`NoRepeatedAlertExactly`), and some counts
  then keep both promises if and only if dependencies are at most one deep
  (`BothPromises`).
- watchpost/scheduler.py:114-135 records a transition after the parents have been
  confirmed, so a parent that comes up meanwhile can have the child polled and a later
  change of it recorded first. Run to completion, the events of every monitor are in
  order whatever the checks answer, if and only if no enabled monitor with an enabled
  dependent recovers at its first OK (`EventsInOrderExactly`). None is ever missing or
  doubled (`EventsAreChanges`, and `ChangesReachEvents` over every interleaving).
- watchpost/discovery.py:15-19 and THREAT-MODEL.md:45 say that parallel
  scanning can not overshoot `max_auth_failures`. That is so if and only if
  `max_auth_failures` is not positive or `concurrency` is at most one
  (`NeverOvershootsExactly`). In general it holds until the credential first
  succeeds, and from then on the exact bound is
  `max_auth_failures + concurrency - 1` (`LockoutBound`, `BoundIsReached`).
- watchpost/discovery.py:22-24 and 1388-1389 say that `depends_on` is not
  inferred; `propose` does infer it for guests (1169-1171, 1190-1192), and
  `render` rewrites it. The model follows the code.

## Model

| member | source | states |
|---|---|---|
| MonitorStates.MonitorState.Observe | watchpost/state.py:58-85 | one observation moves the mutable counters and state exactly as the step functions `After` and `Change` say, every branch included |
| MonitorStates.CountersAreSuffixes | watchpost/state.py:61-71 | after any history, bad, warnish and good are the lengths of its longest suffixes of FAILs, of non-OKs and of OKs |
| MonitorStates.CountersMeetWindows | watchpost/state.py:73-85 | for all thresholds the configuration accepts, the state is the verdict of the latest prefix of the history that ends in enough FAILs (down), else non-OKs (warn), else OKs (up), and pending if there is none |
| MonitorStates.DownTransitionsAreRare | watchpost/state.py:58-85 | flapping is bounded: c transitions into DOWN need c * (failures_to_down + 1) <= n + 1 results |
| Slugs.SlugShape | watchpost/config.py:234-236 | a slug has only a-z, 0-9 and single inner dashes |
| Slugs.SlugIdempotent | watchpost/config.py:234-236 | slugging a slug changes nothing, so names and slugs can be mixed as references |
| Slugs.SlugIsWords | watchpost/config.py:234-236 | a slug is the runs of letters and digits of the name, lower-cased, with one dash between each two |
| Slugs.LowerExact | watchpost/config.py:235 | large letters become the small ones at the same place of the alphabet, and nothing else changes |
| Slugs.SlugNumbered | watchpost/discovery.py:1418-1420 | the slug of "name n" is the slug of the name, a dash and n (or n alone) |
| Slugs.SlugNumberedInjective | watchpost/discovery.py:1360-1361 | names numbered differently have different slugs |
| Configs.UniqueNames | watchpost/config.py:700-708 | accepts exactly the lists with pairwise different slugs, and otherwise names the first monitor that repeats a slug |
| Configs.ResolveExact | watchpost/config.py:761-765 | with unique slugs, resolution returns a monitor if and only if it is configured and the reference is its name or its slug |
| Configs.ResolveOrderIndependent | watchpost/config.py:761-765 | with unique slugs, resolution does not depend on the order of the list |
| Configs.ParentsExact | watchpost/config.py:767-768 | the parents are exactly the monitors that some reference resolves to |
| Configs.ParentsInOrder | watchpost/config.py:767-768 | and they are in the order of depends_on, unresolved references left out |
| Configs.CheckReferences | watchpost/config.py:771-777 | no error exactly when every reference resolves to another monitor; otherwise the error is that of the first bad reference |
| Graphs.ReportHoldsCycle | watchpost/config.py:783-784 | from the repeated slug onward, the reported path is a real cycle |
| Configs.DependencyWalk.Visit | watchpost/config.py:781-790 | the recursive visit terminates, reports only cycles, and otherwise leaves every finished slug numbered above its parents |
| Configs.DependencyWalk.VisitParents | watchpost/config.py:788-789 | the same for the loop over the parents |
| Configs.CheckDependencies | watchpost/config.py:770-793 | "dependency cycle" exactly when references are good and the resolved graph has a cycle; no error exactly when there is none, and then there is a topological rank |
| Loading.SiteEntry | watchpost/scheduler.py:45-52 | the engine's tables hold, for each enabled monitor, its own thresholds where it has any and the defaults where not, its name and its parents |
| Loading.EnabledInOrder | watchpost/scheduler.py:45 | the loops and the release go over the enabled monitors in the order of the configuration |
| Loading.LoadedSiteValid | watchpost/scheduler.py:45-53 | a configuration that loads gives the engine a well-founded network, and tables that the engine model covers exactly when all counts are at least one |
| Loading.Load | watchpost/config.py:700-793 | loading succeeds if and only if slugs are unique, references good and the graph acyclic, whatever the counts; it yields the tables of `SiteOf`, on a well-founded network |
| Networks.BlockingExact | watchpost/rollup.py:38-52 | there is a blocking parent if and only if some chain of enabled parents, none of them up, ends in one that is down |
| Networks.UnreachableViaDown | watchpost/rollup.py:38-61 | "unreachable via r" names a monitor that ends such a chain, is down, and is itself unblocked |
| Networks.RootCauseIsFirst | watchpost/rollup.py:38-52 | the blocking parent is r if and only if r ends the first blocking chain: at each step the first enabled parent in depends_on order that is down, or not up and itself behind such a chain, until one that is down with no chain above it |
| Networks.BlockChainIsAncestral | watchpost/rollup.py:45-52 | every monitor on a blocking chain is an ancestor, so its recovery reconsiders the blocked one |
| Groups.AddMember | watchpost/rollup.py:70-75 | the dictionary update for one member keeps the summary exact |
| Groups.GroupStates | watchpost/rollup.py:63-76 | a group exists if and only if it has a member; its state, counts and worst list are the worst counted severity, the tallies and the members attaining it in configuration order |
| Groups.GroupStateExact | watchpost/rollup.py:63-75 | the state of a group in terms of its monitors: down if a critical one is DOWN and unblocked, else unreachable if a critical one is a blocked problem, else warn if any is a problem, else pending if any is, else up |
| Groups.CountsAreExact | watchpost/rollup.py:71 | each count is the number of monitors of the group at that level by their own states and blockings, critical or not |
| Groups.WorstAreCulprits | watchpost/rollup.py:66-75 | the worst list holds, in order, the names of the monitors that count at the level, one that is not critical as a warning at most |
| Groups.WorstIsWorst | watchpost/rollup.py:72-75 | the group state bounds every member's counted severity and is attained, unless it is up |
| Groups.DownByCriticalMember | watchpost/rollup.py:66-75 | a group is down if and only if a critical member is effectively down |
| Groups.CountsSumToSize | watchpost/rollup.py:71 | the counts add up to the membership |
| Engine.Poll | watchpost/scheduler.py:70-78 | terminates on every acyclic network for all answers, and troubles nobody but the polled monitor |
| Engine.OnTransition | watchpost/scheduler.py:114-135 | terminates, and the set of troubled monitors does not grow |
| Engine.ConfirmParents | watchpost/scheduler.py:93-107 | the same for the loop over parents |
| Engine.ReleaseChildren | watchpost/scheduler.py:137-161 | the same for the loop over dependents |
| Schedulers.Scheduler.Create | watchpost/scheduler.py:45-53 | one fresh state object for each enabled monitor, nothing recorded or sent |
| Schedulers.Scheduler.Ancestors | watchpost/scheduler.py:82-91 | terminates and returns exactly the enabled monitors reachable through enabled parents |
| Schedulers.Scheduler.PollOnce | watchpost/scheduler.py:70-78 | the method on mutable state does what `Engine.Poll` says, and terminates |
| Schedulers.Scheduler.OnTransition | watchpost/scheduler.py:114-135 | suppression, alerting and recovery as in `Engine.OnTransition` |
| Schedulers.Scheduler.ConfirmParents | watchpost/scheduler.py:93-107 | the loop over the parents as in `Engine.ConfirmParents` |
| Schedulers.Scheduler.ConfirmParent | watchpost/scheduler.py:97-107 | the counted polling loop as in `Engine.Settle` |
| Schedulers.Scheduler.ReleaseChildren | watchpost/scheduler.py:145-161 | the loop over the dependents as in `Engine.ReleaseChildren` |
| Schedulers.Scheduler.ReleaseChild | watchpost/scheduler.py:146-161 | the body of that loop as in `Engine.ReleaseChild` |
| Schedulers.Scheduler.Notify | watchpost/scheduler.py:124-129 | sets the flag of one monitor and appends to the alert log, and nothing else |
| NoLostAlerts.UpUnblocksDescendants | watchpost/rollup.py:38-52 | a change of one monitor unblocks none but its descendants |
| NoLostAlerts.DownKeepsBlocked | watchpost/rollup.py:38-52 | a monitor going down unblocks nobody |
| NoLostAlerts.PollSound | watchpost/scheduler.py:70-161 | the inductive form: one poll keeps "every unblocked problem outside the excused set is alerted", through confirmation and release |
| NoLostAlerts.NoLostAlert | watchpost/scheduler.py:70-161 | after every top-level poll of every run, each monitor that is DOWN or WARN and unblocked has its alert open (no WARN from monitors that others depend on, one-OK recoveries of those that depend on another) |
| Releases.ReleasedOrOk | watchpost/scheduler.py:145-161 | a dependent that its turn of the release leaves a problem, unblocked and unalerted has just answered OK |
| Releases.ReleaseAsks | watchpost/scheduler.py:145-153 | a dependent that the release leaves a problem without an open alert has been polled in it: there is a new row of it |
| AlertConditions.NoLostAlertExactly | watchpost/scheduler.py:137-161 | on every network and for every choice of what each check may answer: no run leaves an unblocked problem (DOWN or WARN) unalerted, if and only if every enabled monitor with an enabled parent recovers at its first OK and none with an enabled dependent may answer WARN |
| AlertConditions.NoLostAlertWithWarnings | watchpost/scheduler.py:114-135 | when every check may answer WARN, if and only if no enabled monitor has an enabled parent |
| AlertConditions.ProblemPoll | watchpost/scheduler.py:114-125 | a failing poll behind a root cause, or with settled parents, changes one monitor only, and alerts it exactly when it is not blocked |
| AlertConditions.ReleaseOnly | watchpost/scheduler.py:145-153 | a recovery polls the one waiting dependent and, on a first OK of several, leaves it as it is |
| RepeatedAlerts.ConfirmKeepsChild | watchpost/scheduler.py:93-107 | when no monitor with a dependent recovers at its first OK, and nobody else polls, confirming the parents of a monitor changes nothing about that monitor |
| RepeatedAlerts.NoRepeatedAlertExactly | watchpost/scheduler.py:93-125 | for polls that never overlap, on every network with OK and FAIL answers: no run sends a problem for a monitor whose last alert was a problem, if and only if no enabled monitor with an enabled dependent recovers at its first OK |
| RepeatedAlerts.BothPromises | watchpost/scheduler.py:93-161 | for polls that never overlap: some recovery counts make a site lose no alert and repeat none, if and only if no monitor has both an enabled parent and an enabled dependent |
| Counterexamples.WarningLosesAlert | watchpost/scheduler.py:134-135 | a server behind a switch: after DOWN to WARN of the switch, an unblocked problem of the server is unalerted |
| Counterexamples.SlowRecoveryLosesAlert | watchpost/scheduler.py:151-153 | with a two-OK recovery of the server, and no WARN anywhere, the same |
| Counterexamples.OneOutageTwoAlerts | watchpost/scheduler.py:118-125 | one outage of the child behind a parent that is up sends two problem alerts |
| Confirmations.SettleConfirms | watchpost/scheduler.py:99-107 | `failures_to_down` attempts suffice: a parent failing but unconfirmed, or never polled, is DOWN after its loop if every poll of it there fails, nested polls included |
| Confirmations.SteadyExactly | watchpost/state.py:73-85 | a monitor that is DOWN stays DOWN through any number of further FAILs, if and only if it has counted all but one of `failures_to_down` in a row or no WARN since its last OK |
| Confirmations.ConfirmFindsDown | watchpost/scheduler.py:93-107 | such a parent, or one failing but unconfirmed or never polled, is DOWN when all parents have been confirmed, if it only fails meanwhile |
| Confirmations.OutageSuppressesAlert | watchpost/scheduler.py:114-125 | a problem behind such a parent is recorded as suppressed behind the monitor its first blocking chain ends with, and no alert is opened |
| Confirmations.RunsAreFirm | watchpost/scheduler.py:70-161 | every run reaches only worlds these results speak of |
| EventLogs.EventsAreChanges | watchpost/scheduler.py:114-133 | after every run the events of each monitor, notes of releases aside, are the state changes that its rows make, each as often as it happened |
| EventLogs.AlertsAreEvents | watchpost/scheduler.py:114-161 | after every run the alert log is, in order, the event table without the suppressed transitions and the recoveries from problems that had not been alerted |
| EventOrder.EventsInOrderExactly | watchpost/scheduler.py:114-135 | whatever the checks answer, after every run the events of each monitor are its state changes in order, if and only if no enabled monitor with an enabled dependent recovers at its first OK |
| Discipline.StepKeeps | watchpost/scheduler.py:62-78 | every atomic step keeps: a lock is held by exactly the task inside its block, at most max_concurrency probes, at most one task running |
| Behaviours.FaithfulKept | watchpost/scheduler.py:70-78 | every atomic step keeps: the recorded rows of a monitor replay to its state, up to a result written but not yet observed |
| Notifications.AnnouncedKept | watchpost/scheduler.py:109-161 | every atomic step keeps the shape of every alert log and the meaning of the alert flag |
| Guarantees.AlwaysGood | watchpost/scheduler.py:62-161 | all three hold in every state of every behaviour |
| Guarantees.LocksAndProbes | watchpost/scheduler.py:62-75 | mutual exclusion for each monitor, no task holds two locks, at most max_concurrency probes are in flight |
| Guarantees.FreeLockMeansReplayed | watchpost/scheduler.py:71-75 | whenever its lock is free, a monitor's state and counters are the fold of observe over the rows recorded for it |
| Guarantees.AlertLogs | watchpost/scheduler.py:109-129 | each monitor's alert log is (Problem+ UP)* Problem*, the flag is set exactly when it ends in a problem, and a first UP is never sent |
| Guarantees.EverySendIsRight | watchpost/scheduler.py:114-161 | a step sends at most one alert; a problem only at an instant when nothing blocks its monitor, an UP only while the alert is open |
| Guarantees.NoDeadlock | watchpost/scheduler.py:62-78 | while any task is inside a poll, some task can move: locks and semaphore cannot deadlock |
| SequentialRuns.MachineRunsPoll | watchpost/scheduler.py:70-161 | the two models agree: with no lock taken, one task of the interleaved machine can run a poll undisturbed, each check answering what the site says, and the world is then that of `Engine.Poll` |
| SequentialRuns.PollRuns | watchpost/scheduler.py:70-78 | the same for a nested call, back to the caller's next stage |
| SequentialRuns.ConfirmRuns | watchpost/scheduler.py:93-125 | the machine's steps through _confirm_parents and the decision after it come to `Engine.ConfirmParents` and `Engine.Decide` |
| SequentialRuns.ReleaseRuns | watchpost/scheduler.py:145-161 | its steps through _release_children come to `Engine.ReleaseChildren` |
| InterleavedAlerts.ResumeSound | watchpost/scheduler.py:70-78 | observing a result keeps every unblocked problem, DOWN or WARN, alerted or owed by a task in flight |
| InterleavedAlerts.AccountedKept | watchpost/scheduler.py:70-161 | so does every atomic step of every task |
| InterleavedConditions.AlwaysAccounted | watchpost/scheduler.py:62-161 | in every state of every behaviour under the condition below, each unblocked problem is alerted or owed by a task in flight |
| InterleavedConditions.NoLostAlertInterleaved | watchpost/scheduler.py:62-161 | with one loop per enabled monitor and however the loops interleave, whenever all of them sleep every unblocked problem (DOWN or WARN) is alerted, if and only if the condition of `NoLostAlertExactly` holds |
| Replays.RunReached | watchpost/scheduler.py:178-201 | every run to completion is one that the scheduler's own loops can make |
| LoneMonitors.AlwaysSeparate | watchpost/scheduler.py:114-135 | without dependencies, in every state of every behaviour with OK and FAIL answers: a task calls nobody, an alert is open only while its monitor is down, up to a decision just being made, and no problem has been sent twice in a row |
| InterleavedRepeats.DependencyRepeats | watchpost/scheduler.py:93-125 | for every dependency and all counts: while the loop of the child waits to confirm the parent, the loop of the parent polls it up to its last OK but one; the confirming poll then releases and alerts the child, and its own transition alerts it again |
| InterleavedRepeats.NoRepeatedAlertInterleaved | watchpost/scheduler.py:62-161 | with OK and FAIL answers and however the loops interleave, no problem is sent for a monitor whose last alert was a problem, if and only if no enabled monitor depends on an enabled one |
| InterleavedRepeats.BothPromisesInterleaved | watchpost/scheduler.py:62-161 | some recovery counts make interleaved loops lose no alert and repeat none, if and only if no enabled monitor depends on an enabled one |
| InterleavedConfirmations.WatchedStep | watchpost/scheduler.py:93-107 | every atomic step of every task keeps: a parent that is only seen to fail has failed as often as the confirming loop asked it, until it is down |
| InterleavedConfirmations.OutageSuppressesInterleaved | watchpost/scheduler.py:93-125 | over every interleaving: a problem behind an enabled parent that is down, failing or never polled, and that every task only sees fail until the decision, is suppressed with a blocker named, and nothing is sent for it |
| EventFlights.ChangesReachEvents | watchpost/scheduler.py:70-135 | in every state of every behaviour, the events of a monitor and its transitions carried by tasks in flight are together exactly the state changes that its observed rows make |
| EventFlights.AlertsReachEvents | watchpost/scheduler.py:114-161 | in every state of every behaviour, all that was sent is an unsuppressed event or about to be one, and of the problems among these each was sent as often as it occurs there |
| EventFlights.EventsAtRest | watchpost/scheduler.py:70-161 | while all tasks sleep, the event table holds exactly the state changes of every monitor's rows, and its unsuppressed problems are exactly the problems sent |
| Courses.AlwaysInCourse | watchpost/scheduler.py:93-161 | in every state of every behaviour, the loops over parents and over dependents run in configuration order, a parent is confirmed at most failures_to_down times, and every notice is honest: a transition changes the state, a suppressed one is a problem behind an ancestor of that name, and a release repeats the problem of a dependent of the monitor it names |
| Courses.EverySuppressionIsRight | watchpost/scheduler.py:114-125 | the monitor that a problem is suppressed behind ends its first blocking chain at that instant |
| Fits.Round4 | watchpost/forecast.py:78 | the result is the nearest multiple of 0.0001, the even one of two equally near |
| Fits.NormalEquations | watchpost/forecast.py:62-71 | the residuals of the line add up to nothing and are orthogonal to the times |
| Fits.FitExists | watchpost/forecast.py:58-68 | a fit is returned if and only if there are two points whose time stamps differ |
| Fits.FitMeasures | watchpost/forecast.py:75-82 | n is the number of points, the span is the time from the first to the last in hours, and the last value is that of the last point |
| Fits.SlopeIsPerDay | watchpost/forecast.py:76-82 | the slope is what the line gains in 24 hours, from any time on |
| Fits.FitIsOptimal | watchpost/forecast.py:56-82 | no line has a smaller sum of squared residuals, and no other line has as small a one |
| Fits.ClampNeverFires | watchpost/forecast.py:72-74 | ss_res <= ss_tot, so r2 before rounding is in [0, 1] and max(0, ...) changes nothing |
| Fits.ExactLineRecovered | watchpost/forecast.py:56-82 | points on one line give back that line with r2 = 1 |
| Forecasts.CrossingExact | watchpost/forecast.py:85-94 | "already" is past the level now; "future" is the one time the line equals the level, after now, past it from then on and not before; "never" is never |
| Forecasts.Cross | watchpost/forecast.py:116-122 | one turn of the loop records the crossing of one threshold and its date if within the horizon, and leaves the other alone |
| Forecasts.SelectedStatus | watchpost/forecast.py:124-134 | the selected status says when, if ever, the line is past a threshold |
| Forecasts.Project | watchpost/forecast.py:97-135 | the forecast is exact: insufficient data exactly when there are too few points, no two time stamps differ, or from first to last the points cover less than min_span_hours; a date is the first time past the level, given if and only if it is within the horizon; each status means what its name says about the line |
| Forecasts.DatesOrdered | watchpost/forecast.py:113-122 | with warn no further out than crit, a crit date comes with now <= warn_at <= crit_at <= horizon |
| Forecasts.DatesMatchStatus | watchpost/forecast.py:121-134 | dates appear only with "projected" or "already_crossed", and these have one (the latter given a non-negative horizon) |
| Series.Store.Record | watchpost/store.py:62-66 | a new row is appended; of the hourly series of every monitor and window it can change only the point of its own hour, and only if it passes the query's filter |
| Series.Store.Query | watchpost/store.py:95-104 | the points are at least an hour apart, and their means weighed by group size add up to the selected values |
| Series.Hours | watchpost/store.py:99-101 | the groups are exactly the hours that occur, each once, in order |
| Series.PointMeans | watchpost/store.py:95-104 | a point is in the series if and only if it is at half past an hour in which something was selected, and has the mean of what was selected within that hour |
| Series.SeriesSpaced | watchpost/store.py:98-104 | the points are strictly ordered in time, at least an hour apart for each step |
| Series.SeriesCanBeFitted | watchpost/store.py:95-104 | two points are always enough for a fit, and n points span at least n - 1 hours |
| Series.HistorySuffices | watchpost/forecast.py:101-110 | with a threshold, enough hourly points and enough span the answer is never "insufficient_data" |
| Series.SeriesConserves | watchpost/store.py:98-104 | the means weighed by their group sizes add up to all selected values |
| Series.IneligibleIgnored | watchpost/store.py:99-100 | failed polls, polls without a value and other monitors' rows leave the series unchanged |
| Series.OnlyItsHour | watchpost/store.py:99-101 | a new row changes the point of its own hour, which is there afterwards, and no other appears, disappears or moves |
| LockoutGuarantees.StepKeepsSound | watchpost/discovery.py:792-818 | every atomic step keeps: locks guard exactly the unproven attempts, the log agrees with the counters, and both bounds hold |
| LockoutGuarantees.LockoutBound | watchpost/discovery.py:499-541 | for any number of hosts and any interleaving: rejections and attempts in flight never exceed max + concurrency - 1; while no attempt has succeeded, never max, with at most one attempt in flight |
| LockoutGuarantees.RetiredForGood | watchpost/discovery.py:577-593 | once the count has reached the limit no attempt with the credential ever starts |
| LockoutGuarantees.ScanTerminates | watchpost/discovery.py:986-999 | a scan takes no more steps than its hosts, services and credentials allow |
| LockoutGuarantees.NoDeadlock | watchpost/discovery.py:986-999 | while a host is not done some step is possible, so with the bound on steps every scan ends with every host done |
| LockoutCoverage.ScanCovers | watchpost/discovery.py:499-541 | when a scan ends with every host done, each credential of each service of each host has been tried there, or is at the limit, or comes after one of that service that stopped it |
| LockoutCoverage.NothingAfterStop | watchpost/discovery.py:509-522 | and after an attempt that stops a service nothing is tried there again |
| LockoutTightness.NeverOvershootsExactly | watchpost/discovery.py:15-19 | no scan is ever rejected more often than the limit, if and only if the limit is not positive or at most one host is scanned at a time |
| LockoutTightness.BoundIsReached | watchpost/discovery.py:813-818 | for every limit and concurrency some scan is rejected exactly max + concurrency - 1 times |
| Proposals.NotAllTaken | watchpost/discovery.py:1360-1361 | pigeonhole: the loop over numbered names cannot outlast the taken slugs |
| Proposals.FindFreshName | watchpost/discovery.py:1357-1361 | the renaming loop terminates and returns `FreshName` |
| ProposalGuarantees.FreshNameIsFirstFree | watchpost/discovery.py:1357-1361 | that is the first of name, name (address), name (address) 2, ... whose slug is free |
| ProposalGuarantees.CandidateNames | watchpost/discovery.py:1357-1361 | the candidates are the name, the name with the address in brackets, and that with the numbers from 2 on |
| Proposals.ExistingKeys | watchpost/discovery.py:1343-1344 | the keys and slugs of the configured monitors, the last monitor winning a key |
| ProposalGuarantees.ExistingIsLast | watchpost/discovery.py:1343-1344 | a key stands for the name of the last configured monitor that has it |
| Proposals.NameHost | watchpost/discovery.py:1348-1371 | the loops over one host's proposals compute `HostNaming` and its rewritten block |
| Proposals.Render | watchpost/discovery.py:1340-1372 | the loop over hosts computes `RenderUpTo`, with both counts |
| ProposalGuarantees.BlockHoldsNewOnes | watchpost/discovery.py:1351-1371 | a host's block holds exactly its proposals that are not configured, in order, changed in name and dependencies only |
| ProposalGuarantees.KeptPlusSkipped | watchpost/discovery.py:1353-1372 | every proposal is either proposed or skipped |
| ProposalGuarantees.ProposedSlugsUnique | watchpost/discovery.py:1344-1365 | no two monitors, configured or proposed, share a slug |
| ProposalGuarantees.DependenciesLead | watchpost/discovery.py:1366-1368 | every rewritten dependency names a configured monitor or a proposed one |
| ProposalGuarantees.RenamedIsLast | watchpost/discovery.py:1348-1368 | a dependency leads to what the last proposal of that name in the host's list became: the configured monitor with its key, or the proposal under its new name |
| Drafts.ProposeIsLayered | watchpost/discovery.py:1147-1192 | whatever a host answers, each dependency `propose` infers names an entry of its list, and every entry of that name has no dependencies itself |
| Drafts.GuestDependsOnNode | watchpost/discovery.py:1169-1171 | a Proxmox guest depends on its node if the node is proposed too |
| Drafts.MachineDependsOnHost | watchpost/discovery.py:1190-1192 | a vSphere machine depends on the host it runs on if that is proposed too |
| Drafts.OthersDependOnNothing | watchpost/discovery.py:1147-1192 | a proposal that is neither a guest nor a machine with a known host depends on nothing |
| Merging.MergedReferences | watchpost/config.py:771-777 | adding monitors whose dependencies name configured ones, or added ones without dependencies, keeps every reference good |
| Merging.MergedAcyclic | watchpost/config.py:778-793 | and keeps the graph acyclic |
| Merging.ProposalLoads | watchpost/discovery.py:1340-1392 | a configuration that loads still loads with everything discovery proposes for any hosts pasted in |

## Left out

- Checks (SNMP, SSH, WinRM, HTTP, platforms) are an arbitrary oracle for OK, WARN or FAIL; values and messages matter only in `Series`. An exception in a check is a FAIL.
- Alert delivery, retries and the choice of targets: sending is appending to a log.
- Lower-casing and slugs are those of ASCII.
- RepeatedAlerts.NoRepeatedAlertExactly: is about polls run to completion; with interleaved loops `InterleavedRepeats.NoRepeatedAlertInterleaved` holds instead.
- InterleavedRepeats.NoRepeatedAlertInterleaved: the model gives a free lock to any task that waits for it, where asyncio serves waiting tasks in order of arrival. The schedule of `DependencyRepeats` lets polls of the parent overtake the confirming one; under order of arrival a parent that needs two OKs must have one poll in flight when the child queues, and one that needs more must have as many polls queued ahead.
- Interleavings.Enabled: lets a task wake for any monitor. The universal results hold of all such tasks; the exact conditions are about one loop per monitor (`Replays.Polling`).
- Releases.ReleasedOrOk: is about one turn of the release. Later turns can poll the dependent again, and leave it unalerted if a WARN of a monitor that others depend on is involved (`Counterexamples.WarningLosesAlert`); without that, `NoLostAlerts.PollSound` speaks of the whole release.
- EventFlights.AlertsReachEvents: compares the alert log and the event table as multisets; while loops interleave their orders may differ.
- Counterexamples.OneOutageTwoAlerts: is the log of one poll on one site; the general statement is `RepeatedAlerts.NoRepeatedAlertExactly`.
- Loading.Load: the engine model covers counts of at least one (`PositiveCounts`) and names that are not empty only, which the configuration does not enforce; credential and alert references and the other validators of the configuration are not modelled.
- Networks.FirstBlocking: names a blocking monitor whatever its name. In the source an empty name counts as no blocker where it is tested for truth (rollup.py:48-50, scheduler.py:121), so that nothing is suppressed behind it.
- Clocks: `since`, `last_at` and event times are left out, intervals too: when a task wakes is arbitrary.
- Cancellation at shutdown, pruning of old rows, and failures of the database.
- Fits.Round4: over exact reals; rounding and overflow of floating point are not modelled.
- Forecasts.Project: reasons, trend strings and the check for thresholds in the caller are left out.
- Lockouts: which ports are open, TLS gates, host keys and the bodies of attempts decide only which credentials a host has in its list and how an attempt ends; both are arbitrary. An attempt that returns a value has succeeded, also where the answer only says that the device is of another kind.
- Drafts.Propose: of what `propose` derives from a finding only names and dependencies are modelled; other settings and the key of a monitor are arbitrary, the limit `max_guests` is a shorter list, and text and report of the proposal are left out.
- Web interface, metrics, command line, YAML and secrets, directory queries and target expansion: they would add only easier members.
