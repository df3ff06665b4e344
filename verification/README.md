# RuntimePulse, verified

RuntimePulse resumes coding-agent sessions when something happens. Events come in from watchers,
clients and finished runs; rules select events and say which session to resume with which prompt;
each match becomes a *continuation*, a durable row that a dispatcher runs through the session's
adapter. This project models that engine and proves what it promises.

- **The store.** `Core`, `StoreModel` and `Store` hold the tables, the effect of every store call as
  one atomic function, and the calls themselves as methods of a class that updates its tables in
  place. `StoreLaws`, `Redelivery` and `Retention` prove what every run of calls keeps.
- **The engine.** `Engine` is the daemon as a state machine: the tables, the one-slot wake channel,
  the dispatcher with its scan snapshot, one worker per session with its program counter, producers
  that have committed but not yet woken the dispatcher, shutdown, crash and restart. Every
  interleaving is a run. `WorkerSafety`, `RunHistory`, `Fifo`, `WakeUps` and `Chaining` prove
  invariants and termination over all runs from the empty system (`Counting` holds sums for them).
  `Goroutines` is the machine below it, where worker goroutines have identities of their own and only
  the registry keeps two from serving one session; it refines `Engine`.
- **Verdicts.** `Verdicts` follows each execution from the adapter's answer to the recorded verdict, the
  stored row and the result event, over all runs.
- **Workflows.** `Workflow` validates a document, compiles it to one-shot rules and proves what
  those rules then do; `Chains` follows the feedback loop from a step's completion to the next step
  over all runs of the daemon. `StepOwnership` decides, from the state at hand, whether a step can
  be started by anything but the step it names (`Serving` builds the runs that show its condition is
  needed; `SharedLabels` and `ForeignStarts` are runs from the empty system in which it is misled).
  `Completion` proves that a linear workflow gets to its end, and `LostReports` which crashes break
  the chain.
- **Watchers.** `Poller`, `FileWatch` and `WatchManager` are the loops over an unbounded input
  trace, each against a declarative specification.
- **Encodings.** `MarkerMerge` (the managed block in an instruction file), `Timestamp` (stored time
  strings, over `Lex` and `Decimal`) and `Truncate` (UTF-8-safe cutting).

## Reading the statements

- Clocks, random ids, prompt rendering, adapter outcomes, probe results and file-system answers are
  parameters, so every theorem holds for all of them. Drawn ids are taken as never used before.
- The rule query has no ORDER BY; its row order is an arbitrary enumeration.
- A *ledger* records every row and rule that ever existed and every row swept; a *history* records
  claims, boot resets, verdicts and result events per continuation. Both are ghost bookkeeping of
  the model: no step reads them to decide what to do.
- Store calls succeed, as far as the dispatcher's steps are concerned.

Seven natural claims are false of the code; each has a counterexample and an exact condition:

| claim | counterexample | when it holds |
|---|---|---|
| pending work keeps its session registered | `Retention.PendingWorkDoesNotProtect` | `Retention.SweptSessionsExactly` | internal/store/retention.go:42-50 | A session is deleted if and only if it is idle past the limit, not running, and no active rule points at it. |
| `Retention.SweptRowsExactly` | internal/store/retention.go:58-61 | A continuation is deleted if and only if it is completed or failed and was last updated before the limit. |
| `Retention.SweepIsExact` | internal/store/retention.go:32-78 | All three deletions at once, with survivors and rules unchanged. |
| delivering an event again changes nothing | `Redelivery.SweptRowFiresAgain`, `Redelivery.SweptEventReturns`, `Redelivery.NewRuleFires` | `Redelivery.RedeliveryIff` |
| a session's rows run in the order of their stamps | `Fifo.LateStampOvertakes` | `Fifo.FifoThroughoutIff` |
| a step waiting for another's completion is started by that step | `SharedLabels.ForeignCompletionStartsStep`, `ForeignStarts.RemovedRuleStartsStep`, `ForeignStarts.InjectedEventStartsStep`, `ForeignStarts.ManualRunStartsStep` | `StepOwnership.OwnStartIff` |
| a completed step is reported to the rules that wait for it | `LostReports.CrashLosesReport` | `LostReports.ForgottenIff` | internal/dispatch/dispatcher.go:175-178 | Over every run: a recorded verdict is unreported with nobody left to report it if and only if it was so before or some crash of the run found it in a worker's hand. |
| `LostReports.ReportedUnlessCrashed` | internal/dispatch/dispatcher.go:175-178 | From the empty system: a recorded verdict has been reported or is about to be if and only if no crash found it in hand. |
| `LostReports.ReportedLaterIff` | internal/dispatch/dispatcher.go:175-178 | A recorded verdict not yet reported is reported in some later run if and only if a worker still has it in hand. |
| merging the managed block twice is merging it once | `MarkerMerge.StrayEndAppendsAgain`, `MarkerMerge.UnclosedBeginLosesText` | `MarkerMerge.IdempotentIffWellMarked` |
| stored timestamps sort as instants | `Timestamp.FiveDigitYearsSortWrong` | `Timestamp.TextOrderIffFourDigitYears` |

The comment at internal/store/ingest.go:15-18 calls re-delivery a no-op without qualification; the
code is followed. Creation stamps of manual inserts are read before the connection is acquired
(internal/store/continuations.go:106), so stamps need not increase; `Fifo.StepKeepsFifoIff` says
exactly which new rows break the order, and `Fifo.StampedRunIsTimely` that increasing stamps do not.
Labels are checked for duplicates within one workflow only (internal/workflow/workflow.go:60-63),
while result events carry them to every stored rule; rows outlive their rule, and a client may inject
an event of any type. That a daemon crash can never lose a wake-up (docs/usage/rules-and-sessions.md:59)
holds of events once they are ingested; a result event is ingested after its verdict is recorded, and
a crash between the two loses it.

## Model

| member | source | states |
|---|---|---|
| `Store.Store.Ingest` | internal/store/ingest.go:22-99 | An event without an id is refused and nothing changes. Otherwise, whatever order the rule query returns, the tables become those of `IngestDb`; the rows reported are the rows added, in query order, one for each active matching rule without a row for the event; each carries its rule's session and label, both stamps `now`, no command and no exit code, and is pending with the prompt that rendering the rule's template for the event gave, or failed with an empty prompt and "prompt template error: " and the error. The event is stored as first delivered. |
| `Store.Store.InsertOrIgnore` | internal/store/ingest.go:71-91 | A row goes in exactly if the (rule, event) pair is free, and then, and only then, a one-shot rule is consumed with it. |
| `Store.AnyRowOrder` | internal/store/ingest.go:35-93 | The row-by-row transaction ends in `IngestDb` for every enumeration of the matched rules. |
| `StoreLaws.IngestExactly` | internal/store/ingest.go:35-93 | An ingest adds exactly one row for each rule whose type and source match, which is unconsumed and unexpired and has no row for the event; consumes exactly the one-shot rules among them; stores the event if it is new; and changes no other row, rule, session or event. |
| `StoreLaws.AddedRowsCarry` | internal/store/ingest.go:59-83 | What every added row says, field by field, for both outcomes of rendering. |
| `Store.Store.ClaimContinuation` | internal/store/continuations.go:11-23 | Answers true exactly if the row was pending, and then that row is running and stamped `now`; nothing else changes. |
| `Store.Store.UpdateContinuationResult` | internal/store/continuations.go:25-37 | Writes state, command, exit code, summary and stamp to that row whatever its state; an unknown id changes nothing, and nothing else changes. |
| `Store.Store.ResetRunningContinuations` | internal/store/continuations.go:39-50 | Every running row becomes pending and is stamped, no other row changes, and the count is the number of rows that were running. |
| `Store.Store.NextPendingForSession` | internal/store/continuations.go:71-87 | Finds the pending row of the session with the least (created_at, id), and finds none exactly if the session has no pending row. |
| `Store.Store.InsertManualContinuation` | internal/store/continuations.go:103-118 | Adds one pending row with the given session and prompt, labelled manual, and nothing else. |
| `Store.Store.AddRule` | internal/store/rules.go:10-31 | Fills in id, action and creation time, stores the rule unconsumed; a taken id is an error and changes nothing. |
| `Store.Store.RemoveRule` | internal/store/rules.go:60-63 | Removes that rule only; its continuations stay. |
| `Store.Store.RegisterSession` | internal/store/sessions.go:11-30 | Upserts agent, repository and stamp; a stored session keeps its state and creation time, a new one has the given state or waits; the answer is the stored row, and no other session changes. |
| `Store.Store.SetSessionState` | internal/store/sessions.go:65-69 | Updates that session's state and stamp and nothing else; an unknown id changes nothing. |
| `Store.Store.Sweep` | internal/store/retention.go:20-78 | Deletes exactly the completed and failed rows past the limit, whatever rule they belong to, the events past theirs, and the sessions idle past theirs, not running and targeted by no active rule; every survivor and every rule is unchanged, and each count is the number of rows its table lost. |
| `StoreModel.PendingSessions` | internal/store/continuations.go:52-69 | Contains a session exactly if it has a pending row. |
| `Lex.Trichotomy` | internal/store/continuations.go:71-78 | The text order of ORDER BY is total: two different strings compare in exactly one way. |
| `Lex.Transitive` | internal/store/continuations.go:71-78 | The text order of ORDER BY is transitive. |
| `StoreLaws.OneShotAtMostOnce` | internal/store/ingest.go:59-93 | Over any run of store calls (re-deliveries, resets, sweeps, rule removals) a one-shot rule creates at most one continuation in total. |
| `StoreLaws.OneShotFreshByOp` | internal/store/ingest.go:84-91 | Every call keeps the reason: an unconsumed one-shot rule has no creation in its history, swept rows included. |
| `StoreLaws.RowsConserved` | internal/store/retention.go:58-60 | Rows created equal rows stored plus rows swept, as sets and in number, after any run of calls. |
| `StoreLaws.RowAfter` | internal/store/retention.go:25-26 | No call changes a stored row's identity, drops an unfinished row, or reuses an id. |
| `StoreLaws.PairsUniqueByOp` | internal/store/store.go:70-84 | Every call keeps (rule_id, event_id) unique, manual rows included. |
| `StoreLaws.StoreInvAlways` | internal/store/store.go:70-84 | All table invariants hold after every run of calls. |
| `Redelivery.IngestSettles` | internal/store/ingest.go:35-93 | After an ingest, every rule that can still select the event, now or later, has its row for it. |
| `Redelivery.SettledAlways` | internal/store/ingest.go:15-18 | That stays true under any calls that add no rule and sweep nothing. |
| `Redelivery.RedeliveryIsNoOp` | internal/store/ingest.go:15-18 | Hence ingesting the event again, after any such calls, creates nothing and changes no table. |
| `Redelivery.RedeliveryIff` | internal/store/ingest.go:15-93 | After any calls at all from the empty store, ingesting an event changes no table if and only if the event is stored and every rule that selects it now created a row for it that was not swept. |
| `Redelivery.RedeliveryAfterSweep` | internal/store/retention.go:58-69 | Right after a sweep a re-delivery is a no-op if and only if the sweep kept the event and deleted no row of it whose rule still selects it. |
| `Redelivery.SweepRearms` | internal/store/retention.go:58-60 | A sweep re-arms for a stored event exactly the still-selecting rules whose row for it was deleted. |
| `Redelivery.RedeliveryAfterAddRule` | internal/store/rules.go:24-30 | After adding a rule a re-delivery fires that rule, if it selects the event, and no other; it is a no-op exactly if it does not. |
| `Redelivery.SweptRowFiresAgain` | internal/store/retention.go:58-60 | Counterexample from the empty store: the finished row is swept and its rule fires on the same event again. |
| `Redelivery.SweptEventReturns` | internal/store/retention.go:69-69 | Counterexample from the empty store: only the event is swept; delivering it again stores it again though no rule fires. |
| `Redelivery.NewRuleFires` | internal/store/rules.go:24-30 | Counterexample from the empty store: a rule added after the first delivery fires on the second. |
| `Retention.SweepAbsorbs` | internal/store/retention.go:32-78 | For t1 <= t2, sweeping at t1 and then at t2 equals sweeping at t2. |
| `Retention.SweepLeavesDispatchAlone` | internal/store/retention.go:25-26 | A sweep changes no rule, no unfinished row, no session's next pending row and no scan answer. |
| `Retention.SweptSessionsExactly` | internal/store/retention.go:42-50 | A session is deleted if and only if it is idle past the limit, not running, and no active rule points at it. |
| `Retention.PendingWorkDoesNotProtect` | internal/store/retention.go:42-50 | Counterexample from the empty store: a session is registered, work is queued for it, and a sweep deletes the registration while the work still waits. |
| `Goroutines.MutualExclusion` | internal/dispatch/dispatcher.go:83-126 | In every interleaving of scans, stale snapshots, goroutine exits, shutdown, crash and restart, no two live worker goroutines serve one session, the registry names exactly the served sessions, each executed row is the one running row of its session, and none is live after draining. |
| `Goroutines.GoroutinesRunTheEngine` | internal/dispatch/dispatcher.go:83-126 | Refinement: every run of the machine with goroutine identities is a run of the per-session engine ending in the state it then shows, so every engine theorem holds of the goroutines. |
| `Goroutines.StepSeen` | internal/dispatch/dispatcher.go:83-126 | Each goroutine, dispatcher or outside step is one engine step and keeps the registry exact. |
| `WorkerSafety.RunningRowsAreHeld` | internal/dispatch/dispatcher.go:103-179 | In every reachable state a session has at most one running row, what a worker holds is that row, and after draining no worker is left. |
| `WorkerSafety.ClaimNeverFails` | internal/dispatch/dispatcher.go:111-125 | In every reachable state a worker's claim finds its fetched row still pending. |
| `WorkerSafety.SafeStep` | internal/dispatch/dispatcher.go:62-179 | The ownership invariant (each running row belongs to its worker, to boot recovery or to shutdown) is kept by every step. |
| `WorkerSafety.SafeAlways` | internal/dispatch/dispatcher.go:62-179 | The ownership invariant is kept by every run. |
| `RunHistory.ClaimsBounded` | internal/store/continuations.go:39-50 | A row is claimed at most once more than boot resets found it running, and exactly as often while it is pending. |
| `RunHistory.OneResultEvent` | internal/dispatch/dispatcher.go:175-213 | Over a whole history with restarts, a continuation gets at most one result event; its type, label (or rule id), ids, duration and exit code are those of the recorded verdict, which the stored row shows. |
| `Verdicts.ReturnTells` | internal/dispatch/dispatcher.go:155-163 | After an adapter's return the verdict in hand is completed if and only if the run started and exited with 0; its command, exit code and duration are the run's, its summary the run's output or the start error. |
| `Verdicts.LookUpTells` | internal/dispatch/dispatcher.go:135-148 | A run is started if and only if the session is registered with a known agent; otherwise the verdict is failed, with no exit code and the reason as summary. |
| `Verdicts.VerdictTellsRun` | internal/dispatch/dispatcher.go:130-179 | Over every run: a recorded verdict, and the stored row, tell how the row's last execution ended. |
| `Verdicts.ResultTellsRun` | internal/dispatch/dispatcher.go:191-213 | Over every run: the result event is "continuation.completed" if and only if the row's last execution started and exited with 0, and carries that exit code and duration; without session or adapter it is "continuation.failed" with no exit code. |
| `Verdicts.ResumeIsBracketed` | internal/dispatch/dispatcher.go:149-157 | The session is marked running before its agent is resumed and waiting after it returned; nothing else in the tables changes. |
| `Decimal.IntReadsBack` | internal/dispatch/dispatcher.go:201-207 | The exit code and duration in the event read back as the numbers. |
| `RunHistory.NoLateVerdict` | internal/dispatch/dispatcher.go:167-179 | A verdict about to be recorded never comes from a run that returned after shutdown was raised. |
| `RunHistory.VerdictsAreFinal` | internal/dispatch/dispatcher.go:130-179 | A finished row is never written again: after any run it is unchanged or swept, and a swept id never returns. |
| `RunHistory.UnfinishedWorkStays` | internal/store/retention.go:25-26 | No step, crash or sweep included, removes a pending or running row. |
| `RunHistory.TrackedAlways` | internal/dispatch/dispatcher.go:103-213 | The bookkeeping of claims, resets, verdicts and results behind these theorems holds in every run. |
| `Fifo.FifoAlways` | internal/store/continuations.go:71-87 | If every row, when it is created, comes in time (after all its session has dispatched, is running or has fetched), then in every reachable state and per session every dispatched finished row precedes the running row, both precede every pending row, and a worker about to claim has the oldest. |
| `Fifo.StepKeepsFifoIff` | internal/store/continuations.go:71-118 | Exact for every step, whoever creates rows (injections, manual runs, result events): the order survives the step if and only if each pending row it creates comes in time. |
| `Fifo.FifoThroughoutIff` | internal/store/continuations.go:71-118 | Exact for every run: the order holds in all its states if and only if every row comes in time. |
| `Fifo.StampedRunIsTimely` | internal/store/ingest.go:59-83 | Creation stamps that increase from commit to commit are a case of this. |
| `Fifo.RecoveredRowIsNext` | internal/store/continuations.go:39-50 | The row found running at boot is, after the reset, the next one its session runs. |
| `Fifo.ManualKeepsFifoIff` | internal/store/continuations.go:103-118 | The case of a manual row, written out: it keeps the order if and only if it is later than everything its session has dispatched or is running and than the row its worker has already fetched. |
| `Fifo.LateStampOvertakes` | internal/dispatch/dispatcher.go:111-121 | Counterexample, a run from the empty system: an earlier-stamped row inserted between fetch and claim leaves the table in order, and the claim then overtakes it. |
| `WakeUps.NoLostWakeUp` | internal/dispatch/dispatcher.go:53-126 | In every reachable state not shutting down, a session with a pending row has a worker, or a wake token is queued, or the dispatcher has yet to query or holds the session in its snapshot, or someone is between commit or deregistration and Wake. |
| `WakeUps.WakeStep` | internal/engine/engine.go:33-41 | Every step keeps that; in particular an ingest that created rows commits before it notifies. |
| `WakeUps.OwedForRowsOnly` | internal/engine/engine.go:33-41 | A commit of an injection, manual run or result event leads to a wake-up if and only if it created rows. |
| `WakeUps.NeverStalls` | internal/dispatch/dispatcher.go:61-110 | In every reachable state not shutting down with unfinished work, some goroutine can step without the safety tick; a state where nothing can move has no work left. |
| `Chaining.ChainingTerminates` | internal/dispatch/dispatcher.go:62-213 | When all rules are one-shot, along any run without shutdown, crash and new rules (sweeps, registrations, rule removals, safety ticks, injected events and manual runs included) the daemon dispatches at most (queued rows + unconsumed rules + manual runs) times and takes a bounded number of steps beyond a fixed allowance for each tick, upkeep step, injection and manual run; where only the tick can move it no row is pending or running. |
| `Chaining.OrdinaryRunsEnd` | internal/dispatch/dispatcher.go:62-213 | The bounds with what is left of measure and backlog at the end of the run, from any state. |
| `Chaining.UnattendedRunsEnd` | internal/daemon/daemon.go:150-161 | While nobody injects events or runs anything by hand, the sweeps at boot and every hour and other upkeep cost one step each, a tick one scan, and the backlog bounds dispatches outright. |
| `Chaining.SilentWithoutTicks` | internal/dispatch/dispatcher.go:130-213 | Between ticks the number of steps other than upkeep is bounded by the measure alone. |
| `Chaining.SilenceIsReachable` | internal/dispatch/dispatcher.go:62-213 | From any such state the daemon's own steps, with every run succeeding and every prompt rendering, lead to a state in which only the tick can move it. |
| `Chaining.MeasureShrinks` | internal/dispatch/dispatcher.go:62-213 | Every step other than the safety tick and outside input strictly decreases one weighted measure. |
| `Chaining.IngestTrades` | internal/store/ingest.go:59-93 | With one-shot rules only, each queued row an ingest creates is paid for by a rule it consumes. |
| `Workflow.Parse` | internal/workflow/workflow.go:47-77 | Accepts exactly the documents with session, agent, steps, complete steps and distinct labels after defaulting; the result has the same session, agent, repository, selectors and prompts, and label step-N where there was none. |
| `Workflow.DefaultTagsDiffer` | internal/workflow/workflow.go:57-61 | Default labels step-N are pairwise different. |
| `Workflow.FiresOnceOnFirstMatch` | internal/store/ingest.go:35-93 | Over any later run of store calls, a waiting one-shot rule creates exactly one continuation, for the first matching event, or none if no event matches. |
| `Workflow.WorkflowMeaning` | internal/workflow/workflow.go:79-93 | Compilation preserves meaning: the rule of a step has the step's selector, prompt template, session and label, and yields exactly one continuation, in the workflow's session under the step's label, for the first event its selector matches, and none otherwise; the continuation's prompt is the rendering of the step's own prompt for that event, or it is failed with the rendering error. |
| `Workflow.StoreRenders` | internal/store/ingest.go:64-70 | The store's own ingest renders each rule's template, as that statement asks. |
| `Chains.OnlyCompletionsStartSteps` | internal/dispatch/dispatcher.go:191-213 | In every run, a row of a rule waiting for the completion of a label exists only because an injected event posed as one, or because some row completed under that label and its one result event started it. |
| `Chains.StepFollowsItsStep` | internal/workflow/workflow.go:79-93 | If no other rule ever stored carries the label and no injected event poses as it, a step waiting for another step is started only by the one result event of that step's only continuation, completed in the workflow's session. |
| `Chains.LinearWorkflowRunsInOrder` | internal/workflow/workflow.go:57-93 | An accepted workflow whose steps each wait for the one before, and whose labels no rule outside it and no manual run carries, runs in order: a started step has every earlier step completed. |
| `Chains.EmissionStartsStepIff` | internal/dispatch/dispatcher.go:191-213 | A result event emitted while a rule waits for a label fires it if and only if the run completed under that label; the row answers that event in the rule's session. |
| `Chains.LabelNamesRuleIff` | internal/dispatch/dispatcher.go:198-201 | Of the rows that the rules now stored and manual runs can create, a label tells one rule's completions from the others if and only if no other stored rule reports under it and it is not "manual". It says nothing of rules removed since or of injected events: `StepOwnership.OwnStartIff` does. |
| `StepOwnership.ClearMeansOwnStart` | internal/dispatch/dispatcher.go:191-213 | From any tracked state in which a rule waits for a label, no other stored rule can still supply a completion under it before one occurs, and no unfinished row or report under way carries it for another rule: in every later run without a posing injection or an added supplier, whatever the rule creates is started by the one result event of a completed row of the named rule. |
| `StepOwnership.OwnStartIff` | internal/dispatch/dispatcher.go:191-213 | That condition is exact: all such runs start the step by the named rule if and only if the state is clear in this sense and the label is not "manual". |
| `StepOwnership.UnclearMisleads` | internal/store/rules.go:60-63 | In a state that is not clear some such run has the step started by a completed row of another rule, be it of a stored rule, of a removed one, of a worker's report under way, or manual. |
| `StepOwnership.AddedRuleMisleads` | internal/store/rules.go:10-31 | Adding a foreign rule that can supply the label is enough to mislead the step. |
| `StepOwnership.PosingEventStarts` | internal/daemon/rpc.go:66-78 | An injected event of that type and source starts the step though no row caused it. |
| `Serving.RestartIsBoot` | internal/dispatch/dispatcher.go:44-66 | A crash leaves the tables and nothing else: the state after it is the boot state on the same tables. |
| `Serving.ServeUpTo` | internal/dispatch/dispatcher.go:62-179 | After a restart the daemon can serve a session's queue in order up to any row in it, bringing that row to a completion about to be reported, without creating or reporting anything on the way. |
| `Completion.LinearWorkflowFinishes` | internal/dispatch/dispatcher.go:62-213 | From any reachable state in which the rules of a linear workflow wait and its session can be resumed: along any run with an event for the first step, whatever else comes in, in which nobody crashes, shuts down, removes its rules or gives its session an unknown agent, no sweep deletes its session, its prompts render and its session's runs succeed, the daemon falls silent only when every step is completed and reported. |
| `Completion.WaitingStepSpares` | internal/store/retention.go:42-50 | No sweep deletes the session while a step's rule still waits, so only sweeps after the last step was started matter. |
| `Completion.LinearWorkflowCanFinish` | internal/dispatch/dispatcher.go:62-213 | Such a run, however far it has got, can be continued by the daemon's own steps to a silent state with every step completed and reported, if the rules stored by then are one-shot. |
| `Completion.LinearWorkflowCanRun` | internal/workflow/workflow.go:79-93 | So any event its first step selects can run a waiting linear workflow to its end. |
| `Completion.ChainStaysOnTrack` | internal/dispatch/dispatcher.go:103-213 | The invariant behind it: each step's rule waits or its row is unfinished, being reported or reported as completed, and a reported step has started the next. |
| `LostReports.ReportedLaterIff` | internal/dispatch/dispatcher.go:175-178 | A recorded verdict not yet reported is reported in some later run if and only if a worker still has it in hand. |
| `LostReports.CrashLosesReport` | internal/dispatch/dispatcher.go:175-178 | Counterexample, a run from the empty system: a crash between recording and reporting, after which no run ever starts anything by the completed row. |
| `SharedLabels.ForeignCompletionStartsStep` | internal/workflow/workflow.go:57-63 | Counterexample, a run from the empty system: the defaulted label of one workflow's step starts the second step of another workflow, whose own first step created nothing. |
| `ForeignStarts.RemovedRuleStartsStep` | internal/store/rules.go:60-63 | Counterexample, a run from the empty system: the foreign rule is removed, so that no other stored rule carries the label, and the report of its row still starts the step. |
| `ForeignStarts.InjectedEventStartsStep` | internal/daemon/rpc.go:66-78 | Counterexample, a run from the empty system: in a clear state in which nothing has run, an injected event passes for the completion and starts the step. |
| `ForeignStarts.ManualRunStartsStep` | internal/store/continuations.go:103-118 | Counterexample, a run from the empty system: an accepted workflow calls its first step "manual", and a manual run starts its second step. |
| `Poller.RunPoller` | internal/watch/poller.go:26-54 | For every sample sequence the emissions are the initial state, then one at each first sample whose unbroken run of differing samples since the last emission spans the threshold. |
| `Poller.OneCorrectAnswer` | internal/watch/poller.go:26-54 | That specification determines the emissions. |
| `Poller.EmissionsHold` | internal/watch/poller.go:40-53 | Each later emission reports a state that has held over an unbroken run of samples spanning the threshold, and no sample in between ended such a run. |
| `Poller.Alternates` | internal/watch/poller.go:40-53 | Emissions alternate, at increasing samples, each reporting the state its sample observed. |
| `Poller.ZeroThresholdGivesEdges` | internal/watch/poller.go:45-53 | With a threshold of at most 0, a sample emits if and only if it differs from the one before. |
| `FileWatch.RunFileWatch` | internal/watch/file.go:50-124 | The loop emits a grammatical trace, the one its inputs specify, ends believing what its last emission says, reports every firing that finds the file there (as changed or created), and emits at most once per firing and parent change. |
| `FileWatch.WatcherReports` | internal/watch/file.go:58-117 | What each input emits, told from the inputs and the trace alone: a firing after a burst says changed, created, removed or nothing by whether the file was and is there; losing the parent says removed if the file was there; finding it again says created if the file is there; nothing else says anything. |
| `FileWatch.EverySightingIsReported` | internal/watch/file.go:105-117 | The lower bound: at least one emission for each such firing, and the initial one. |
| `FileWatch.TraceIsGrammatical` | internal/watch/file.go:62-123 | For all inputs the trace is a prefix of (created changed* removed)*, and the belief flag says whether the last emission was other than removed. |
| `FileWatch.OneEmissionPerBurst` | internal/watch/file.go:103-117 | Emissions are bounded by timer firings and parent changes, one each, however many events a burst has. |
| `FileWatch.FiringTellsTheTruth` | internal/watch/file.go:105-117 | After a debounce firing the trace ends in presence if and only if the file is there. |
| `WatchManager.NoOrphan` | internal/watch/manager.go:43-110 | In every interleaving an unfinished spawn is missing from the map if and only if a Stop took it out, and that Stop has cancelled it or is about to. |
| `WatchManager.EntriesAreLive` | internal/watch/manager.go:59-66 | The map names only unfinished, unstopped watchers, each under its own id. |
| `WatchManager.StepsTouchOwnEntry` | internal/watch/manager.go:43-110 | Start, Stop and cleanup each touch their own entry only: cleanup removes an entry exactly if it is its own. |
| `WatchManager.RestartSurvives` | internal/watch/manager.go:53-70 | After Stop and Start of one id, the new watcher stays registered through every later step except its own Stop or exit. |
| `MarkerMerge.Disk.MergeMarkerBlock` | internal/setup/rules.go:35-74 | Exactly this file gets the block as its whole content, in place of the old block, or after its text with trailing newlines trimmed; a dry run writes nothing; the action says which case applied. |
| `MarkerMerge.Index` | internal/setup/rules.go:53-54 | The first occurrence, or a negative number exactly if there is none. |
| `MarkerMerge.IdempotentIffWellMarked` | internal/setup/rules.go:53-64 | A second merge changes nothing if and only if the file had neither marker or its first begin marker is at or before its first end marker; then it reports unchanged. |
| `MarkerMerge.StrayEndAppendsAgain` | internal/setup/rules.go:55-64 | With an end marker but no begin marker before it, every merge appends another block. |
| `MarkerMerge.UnclosedBeginLosesText` | internal/setup/rules.go:55-64 | With a begin marker never closed, the second merge deletes everything from that marker on. |
| `MarkerMerge.KeepsOutsideText` | internal/setup/rules.go:55-63 | Text outside the block is kept (up to trailing newlines on append), and in a well marked file the markers found next enclose exactly the canonical block. |
| `MarkerMerge.NewFileIsStable` | internal/setup/rules.go:49-58 | A file created by the merge is unchanged by the next one. |
| `Timestamp.TextOrderIsTimeOrder` | internal/store/store.go:110-116 | For all instants of years 0 to 9999 the encodings are 30 characters long and compare as text exactly as the instants compare. |
| `Timestamp.TextOrderIffFourDigitYears` | internal/store/store.go:110-113 | Below a bound, stored strings sort as the instants if and only if the bound is at most the start of year 10000. |
| `Timestamp.FiveDigitYearsSortWrong` | internal/store/store.go:110-116 | Counterexample: the stored string of the first instant of year 10000 sorts before one of 9999. |
| `Timestamp.RoundTrip` | internal/store/store.go:115-123 | Decoding inverts encoding on those instants. |
| `Timestamp.ExpiryTestAgrees` | internal/core/rule.go:40-45 | The query's text comparison against expires_at equals the rule's own activity test. |
| `Timestamp.QueueOrderAgrees` | internal/store/continuations.go:73-78 | ORDER BY created_at, id on stored strings is the queue order on instants. |
| `Timestamp.CutOffsAgree` | internal/store/retention.go:42-69 | The sweep's three cut-off comparisons on stored strings are its comparisons on instants. |
| `Timestamp.CivilOf` | internal/store/store.go:116-116 | Every instant has a valid UTC reading that denotes it. |
| `Timestamp.InstantIsGregorian` | internal/store/store.go:116-116 | The instant of a reading by the Gregorian calendar's own table of months and leap years. |
| `Timestamp.EpochText` | internal/store/store.go:113-116 | The stored string of day 719528, 1 January 1970, character for character. |
| `Timestamp.CivilOrder` | internal/store/store.go:110-113 | Calendar-and-clock order is instant order. |
| `Truncate.Truncate` | internal/adapter/run.go:88-97 | For every byte string the cut is the last possible character start within 500 bytes; for valid UTF-8 (section 4 of RFC 3629) the result is the longest valid prefix of at most 500 bytes ending between characters, and loses at most three of the 500. |
| `Truncate.CharIsEncoded` | internal/adapter/run.go:88-97 | What counts as a character is the encoding of a Unicode scalar value. |
| `Truncate.EncodedIsChar` | internal/adapter/run.go:88-97 | And every such encoding counts as one, with its length. |
| `Truncate.BoundaryIffStart` | internal/adapter/run.go:93-95 | In valid UTF-8 a position is a character boundary if and only if its byte is not a continuation byte. |
| `Truncate.PrefixIsValid` | internal/adapter/run.go:96-96 | Cutting at a boundary leaves valid UTF-8. |
| `Truncate.BoundaryNearby` | internal/adapter/run.go:92-95 | A boundary is never more than three bytes back. |

## Left out

- SQLite, WAL mode, migrations, row scanning and listing queries: a call is one atomic update of finite maps; the WHERE, UNIQUE and ORDER BY meanings are modelled.
- Store errors inside the dispatcher (failed scan, claim, record or reset): the safety tick exists for these.
- `text/template` rendering and YAML decoding: rendering is an arbitrary function with an error case, and `Workflow.Parse` starts from the decoded document.
- Adapter subprocesses, argument builders, probes, git and docker watchers, fsnotify: arbitrary results and input traces.
- The socket and WebSocket servers, MCP tools, CLI, setup wizard and JSON merge: plumbing around the calls modelled here.
- The event bus: a small broadcast with easy properties; publishing sits between commit and notify and changes no modelled state.
- Filling in a missing event id and timestamp before ingest (internal/engine/engine.go:27-32): events enter the engine model with an id.
- Wall-clock time, timeouts and timer accuracy: safety, quiescence and step bounds are proved, not durations. Instants are free, so a rule past its expiry counts as able to fire in `StepOwnership`.
- Collisions of random ids: drawn ids are hypotheses.
- A worker goroutine after its deregistration, when all it does is wake the dispatcher and count itself out, is a counter in `Engine` and `Goroutines`.
- Updates in place of the dispatcher's and the watch manager's maps: the two protocols are state machines over values, one step per critical section. Spawning from a scan is one step per session, which allows more interleavings than the mutex does.
- The watch manager's emit wrapper, type validation and its state before Run.
- The initial wait of the file watcher for a missing parent (internal/watch/file.go:42-48) and a closed watcher channel.
- The guidance text inside the managed block is a parameter without '<' (the shipped text has none); read errors other than a missing file, the atomic write, and files that are not valid text are not modelled.
- Timestamp.RoundTrip: decoding is modelled on the fixed-width form only, since no other form is written; anything else reads as the zero time, while the library would also read other RFC 3339 texts.
