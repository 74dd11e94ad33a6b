# Horizon Relay, modelled and proved in Dafny

Horizon Relay answers a request with local models, smallest first. If none of them is trusted, a cloud model
answers directly, or plans a graph of subtasks, lets workers run it concurrently and synthesizes the answer.
This project models that machinery and proves what its documentation promises of it. `dafny verify
dfyconfig.toml` checks everything.

## Structure

- **The scheduler.** `Scheduler.dfy` turns `run_tasks` and `worker` into a step system: one program counter per
  worker, the stored results, the cloud budget, the local slots, and the event lock with its FIFO queue. A step is
  one resumption of a worker up to its next await, one callback of the event lock, one live-output event, or one move
  of the batch loop, and any of them may come next. A model call replies, fails with a `RelayError`, or ends in
  anything else (a timeout, a crash). Interruption by the caller or the run deadline is a step of its own.
  `SchedulerWorker`, `SchedulerInvariant` and `SchedulerRuns` prove the invariant that every step keeps;
  `SchedulerTheorems`, `SchedulerProgress`, `SchedulerDeterminism`, `SchedulerCalls` and `SchedulerForecast` draw the
  conclusions, and `Witness.dfy` shows a plan that runs to completion.
- **The plan.** `Plan.dfy` is `Plan.parse` with its loops, `Graph.dfy` the depth loop of the decision graph,
  `Layers.dfy` the path theory that shows that both loops and the scheduler compute one layering, and `EndToEnd.dfy`
  leads from an accepted plan to the runs of its workers.
- **The run.** `Runs.dfy` defines a whole run as a function of the request, the settings, what the models say and what
  its workers leave, and proves what every run promises; `RunTheorems.dfy` puts the real parser and the real workers in
  and compares runs under different schedules; `RunEnds.dfy` tells from what the calls come to how a run has to end.
  `Scan.dfy` and `LocalPhase.dfy` do this for the local models, one tier
  after the other, and `Jobs.dfy` for a plan and its workers. `Engine.dfy` is the class `Run`, whose methods change the
  records, the results and the budget (`Budget.dfy`) step by step and are proved to end where the definitions do. The
  models are an arbitrary function of the number of the call, for workers of the call itself, and the interleaving of the
  workers is an arbitrary list of steps.
- **Routing.** `Policy.dfy` has the score and the rules in exact `real` arithmetic, with rounding to four decimals as
  any monotone function within 0.00005; `Signals.dfy` says what each signal means for what the models said; `Tuning.dfy` has the offline simulator and the proof that it refines the
  router; `Tiers.dfy` has the ladder of models.
- **Self-contained algorithms.** `Results.dfy` (result checks), `Sweep.dfy` (overlap of calls), `Tokens.dfy` (the JSON
  value scanner), `Stream.dfy` (the chat stream) and `Like.dfy` (the memoised SQL LIKE).
- `Json.dfy` and `Sums.dfy` hold values, strings and sums that the rest shares.

## Where the code falls short of a simple statement

- **The empty source name.** `parse` accepts the bare reference `sources` when a source has the empty name, and the
  worker cannot unpack it. `Plans.EmptyNameBreaksWorker` is an instance, `Plans.BareReferenceAccepted` says exactly
  when such a reference is accepted, and `EndToEnd.InputsResolveIff` that this is the only way a started worker's
  inputs can fail to resolve.
- **The empty value.** When a field's value is empty and lies strictly inside a token, the token is selected although
  it has no character of the value (`Tokens.EmptyAnswerSelectsItsToken`); `Tokens.SelectionExactIff` gives the exact
  condition under which the selection is what it should be.
- **Rounding.** The router rounds the score and the simulator the signals, so near a threshold they can disagree
  (`Tuning.RoundingCanDisagree`); outside 0.00005 of it they cannot (`Tuning.ScoresCompareAlike`).
- **`token_signal` "mean".** The simulator takes the first sample's probability where the router averages all samples
  (`Tuning.FirstSampleCanMislead`); `Tuning.FirstSampleStandsForAll` says exactly when that is the same. The mirror of a
  policy therefore leaves `token_signal` unset, and it sets `big_goal_parts`, which the command line omits.
- **A missing signal.** Raising an available signal never lowers the score, but a signal that becomes available can:
  exactly if it is below the score (`Policies.AddedSignalPulls`). So token statistics that become available can turn
  "escalate" into "trust" (`Policies.TokensCanTurn`). `Policies.ArrivalTurnsIff` says exactly when a new signal does that,
  and `Policies.TokensKeepEscalation` when it cannot.
- **`fresh` in the stream.** The flag outlives the fence that set it, so reasoning that follows blank JSON loses its
  leading newlines too, although only JSON is meant to be trimmed (`Stream.ReasoningTrimmedAfterBlankJson`);
  `Stream.ReasoningKeptIff` says exactly when reasoning is kept whole.

## Model

| member | source | states |
|---|---|---|
| Plans.ReadRows | relay/src/horizon_relay/plan.py:42-62 | Reads every row into its task, or stops with the error of the first bad row after only good ones |
| Plans.ReadIffWritten | relay/src/horizon_relay/plan.py:44-62 | A row reads as a task if and only if the task fits into a row (lengths, ID, tier, kind of result, distinct names in lists of at most 12, exactly the checks of its kind, some input) and the row is its JSON form, no field more or less |
| Plans.TaskIdIff | relay/src/horizon_relay/plan.py:49-50 | An ID is accepted if and only if it is a small letter followed by at most 63 small letters, digits and underscores |
| Plans.CheckReferences | relay/src/horizon_relay/plan.py:63-75 | Passes if and only if IDs are distinct, dependencies known and not the task itself, and every reference is a source or a declared dependency's result; otherwise it names duplicate IDs, or the first fault of the first faulty task |
| Plans.PeelLayers | relay/src/horizon_relay/plan.py:76-81 | The peeling loop succeeds if and only if the graph has no cycle, and the round in which it resolves a task is the length of the longest dependency path to it |
| Layers.StuckIsCyclic | relay/src/horizon_relay/plan.py:78-80 | When tasks remain and none is ready, walking back along unresolved dependencies must close a cycle |
| Plans.Parse | relay/src/horizon_relay/plan.py:29-82 | Accepts a value if and only if it is the JSON form of a plan that fits the row limits, is well formed and has no cycle; returns that plan, its tasks in order; of tasks that can be read it reports the first fault, a cycle only when that is all that is wrong |
| Plans.ParseWritten | relay/src/horizon_relay/plan.py:29-82 | Round trip: every acceptable plan that fits the row limits is what parse returns for its JSON form, in either version |
| Plans.ReferenceResolvesIff | relay/src/horizon_relay/plan.py:69-75 | With its dependencies stored, an accepted reference can be unpacked and looked up if and only if it is not the bare name `sources` |
| Plans.BareReferenceAccepted | relay/src/horizon_relay/plan.py:69-75 | The references of any task of any plan pass if and only if the dotted ones do, and the bare name `sources` occurs only with an empty source name |
| Plans.EmptyNameBreaksWorker | relay/src/horizon_relay/engine.py:246-250 | A concrete JSON value for which parse returns a plan whose worker cannot build its inputs |
| Layers.LayeringUnique | relay/src/horizon_relay/graph.py:262-268 | A graph has at most one assignment of longest-path lengths, so loops that each produce one agree |
| Graphs.Sweep | relay/src/horizon_relay/graph.py:265-268 | One in-place sweep labels with true depths only, loses no task, and makes progress whenever some task was ready |
| Graphs.Depths | relay/src/horizon_relay/graph.py:262-268 | For an acyclic plan the sweeps terminate and every task's depth is its longest dependency path, whatever the order of the tasks |
| EndToEnd.ThreeLayeringsAgree | relay/src/horizon_relay/engine.py:229-239 | Round of parse, depth of the graph and batch of any completed run are one and the same map |
| EndToEnd.CompareLayerings | relay/src/horizon_relay/graph.py:262-268 | The same for the values the two loops actually compute |
| EndToEnd.AcceptedIsValid | relay/src/horizon_relay/engine.py:227-232 | Whatever parse accepts meets everything the scheduler's proofs need |
| EndToEnd.InputsResolveIff | relay/src/horizon_relay/engine.py:246-250 | In every reachable state a started worker's references all resolve if and only if none is the bare name, which needs a source with the empty name; such a worker makes no call |
| EndToEnd.WorkersAreGiven | relay/src/horizon_relay/engine.py:247-250 | In every reachable state a worker at work was given exactly one input for each reference: the text of the source, or the stored result, that it names |
| SchedulerRuns.StepKeepsInv | relay/src/horizon_relay/engine.py:227-291 | Every enabled step of every kind keeps the invariant on workers, batches, slots, event queue and budget |
| SchedulerTheorems.ResultsOnlyGrow | relay/src/horizon_relay/engine.py:285-286 | Along any run, nothing stored is ever changed or removed later |
| SchedulerTheorems.StoredResultsAreSound | relay/src/horizon_relay/engine.py:230-244 | In every reachable state, also after failures and cancellation, the results are closed under dependency and each passed its checks on inputs built from its dependencies' stored values |
| SchedulerTheorems.NothingStartsAfterFailure | relay/src/horizon_relay/engine.py:230-236 | A started task's ancestors, at any distance, have all finished; so nothing downstream of a failed or cancelled task ever starts |
| SchedulerTheorems.NothingAfterNotice | relay/src/horizon_relay/engine.py:235-244 | From the moment a failure or an interruption is noticed, no call is made, nothing is stored or charged and no task is started any more |
| SchedulerTheorems.BatchesAreLayers | relay/src/horizon_relay/engine.py:229-239 | A completed run has stored every task's result, and each task ran in the batch of its layer |
| SchedulerTheorems.BatchesAreFew | relay/src/horizon_relay/engine.py:231-233 | There are at most as many batches as tasks, and "No executable task remains" is never reached |
| SchedulerTheorems.SlotLimit | relay/src/horizon_relay/engine.py:265-268 | In every reachable state at most local_concurrency workers hold a slot |
| SchedulerTheorems.EventsInOrder | relay/src/horizon_relay/engine.py:361-374 | Every callback that saw an event, also one cut short by cancellation, ran in strictly increasing order of the event numbers, watchers included, also those of a call that failed, from any orderly line with any number and leftover watchers |
| SchedulerTheorems.WholeRunInOrder | relay/src/horizon_relay/engine.py:361-374 | The same over the whole run: after any events and leftover watchers of the phases before the workers, and with any after them, the callbacks of all phases run in strictly increasing order of their numbers |
| SchedulerTheorems.BudgetSafe | relay/src/horizon_relay/budget.py:13-23 | In every reachable state both limits hold, the calls charged are the cloud records, and with the cloud enabled and one call or more the synthesis would still be granted |
| SchedulerTheorems.WorkerCallBound | relay/src/horizon_relay/engine.py:253-291 | In every reachable state the workers have made at most W + L calls per task |
| SchedulerProgress.NeverStuck | relay/src/horizon_relay/engine.py:254-268 | Every reachable state that is not final has a step, one that neither interrupts nor invents a reply; slots and event lock cannot deadlock |
| SchedulerProgress.StepProgresses | relay/src/horizon_relay/engine.py:227-244 | Every step but a live-output event lowers a measure of the remaining work |
| SchedulerProgress.RunsAreFinite | relay/src/horizon_relay/engine.py:227-244 | Every run's length is bounded by the plan and the number of its live-output events |
| SchedulerProgress.EveryRunCanEnd | relay/src/horizon_relay/engine.py:227-244 | Any partial run can be brought to its end, and without disturbing it if it was undisturbed |
| SchedulerDeterminism.ScheduleIndependence | relay/src/horizon_relay/engine.py:227-291 | If one undisturbed interleaving completes, then in every other no worker ever fails, every stored value is the same, and it can only end completed with the same results, although the workers race for one budget |
| SchedulerDeterminism.AllOrNothing | relay/src/horizon_relay/engine.py:227-291 | Any two undisturbed interleavings run to their ends both complete with equal results or both fail |
| SchedulerDeterminism.EveryInterleavingCompletes | relay/src/horizon_relay/engine.py:227-291 | If one undisturbed interleaving completes, every other can be completed from wherever it stands, with the same results |
| SchedulerForecast.CompletedWasForetold | relay/src/horizon_relay/engine.py:227-291 | The results of a completed undisturbed run are the values the models' replies foretell task by task, and the budget covered the cloud calls they need |
| SchedulerForecast.ForetoldComesTrue | relay/src/horizon_relay/engine.py:227-291 | If such a forecast exists and the budget covers it, then in every undisturbed run nothing fails, every stored value is the foretold one, and a run that is over has completed with all of them |
| SchedulerForecast.CompletesIffForetold | relay/src/horizon_relay/engine.py:227-291 | A plan can be completed undisturbed if and only if a forecast exists that the budget covers |
| Witness.SomeRunCompletes | relay/src/horizon_relay/engine.py:227-291 | A concrete plan, model and schedule that run undisturbed to completion, so the theorems about completed runs speak of something |
| SchedulerCalls.SameCallsSameResults | relay/src/horizon_relay/engine.py:361-374 | Any two undisturbed runs that complete make the same calls, task by task in order and as a multiset, spend the same and store the same results, however the callbacks end, delay and so reorder the workers |
| SchedulerCalls.CallsAreAttempts | relay/src/horizon_relay/engine.py:253-263 | In every reachable state the record is what the run had before, then exactly the attempts, numbered 1, 2, ..., of each task on the tiers of its route, as many as its worker has made |
| SchedulerCalls.SubtaskClimbsLadder | relay/src/horizon_relay/engine.py:253-263 | In every run a later call for the same subtask never goes to a smaller model |
| SchedulerCalls.GaveUpAfterAll | relay/src/horizon_relay/engine.py:253-291 | In every reachable state, a worker that gave up has made exactly those calls, so with escalation on it has called the cloud |
| SchedulerCalls.EscalationIsAnnounced | relay/src/horizon_relay/engine.py:259-262 | A worker enters an attempt on another tier than the last only once its escalation has been announced and delivered, and announces one only then |
| Jobs.GivenUpAfterAll | relay/src/horizon_relay/engine.py:253-291 | The same for a job of a run: under its policy no subtask is given up before its own tier failed W times and, with escalation on, every larger tier once |
| Tiers.WorkerTiersClimb | relay/src/horizon_relay/policy.py:397-405 | Attempts start at the preferred tier, never go down, number at most W + L, and reach the cloud at most once, last |
| Tiers.WorkerTiersInTurn | relay/src/horizon_relay/policy.py:397-405 | Place by place: a cloud task tries only the cloud; any other tries its own tier W times, then, if failed tasks escalate, every larger tier once in order with the cloud last, and nothing else |
| Tiers.AvailableIsLadder | relay/src/horizon_relay/providers/__init__.py:36-38 | Any set of models with the cloud gives a ladder without repeats that ends in the cloud |
| Budgets.CloudBudget.Spend | relay/src/horizon_relay/budget.py:13-23 | Charges exactly the granted calls, leaves the budget alone when it refuses, and keeps the limits |
| Budgets.HistoryKeepsReserve | relay/src/horizon_relay/budget.py:13-23 | After every sequence of requests the limits hold, and one without a final operation leaves a call for it |
| Budgets.FinalNeverRefused | relay/src/horizon_relay/budget.py:14-18 | With the reserve intact the final operation is granted |
| Engine.Run.constructor | relay/src/horizon_relay/engine.py:97-110 | A new run has nothing recorded, charged or stored |
| Engine.Run.CallWithRecord | relay/src/horizon_relay/engine.py:297-345 | A refused call leaves no record and no charge; any other leaves one record, is charged if and only if it goes to the cloud, and returns what the model's outcome reads as; the books balance and the reserve stays |
| Engine.CallsAddUp | relay/src/horizon_relay/engine.py:383-384 | Local and cloud records together are all records |
| Engine.Run.Samples | relay/src/horizon_relay/engine.py:172-188 | The loop gives the samples of its definition, a failed call counting as a request for help, and the record grows by exactly their solve calls to this tier, numbered from 1; nothing is charged |
| LocalPhase.SamplingSound | relay/src/horizon_relay/engine.py:172-188 | The samples are the readings of consecutive calls; sampling stops at the first request for help or after S samples, and never earlier unless a call aborts the run |
| LocalPhase.CriticIsNextLarger | relay/src/horizon_relay/policy.py:313-318 | On a ladder the critic is the next larger local model when cross criticism is on and there is one, else the model itself, and never the cloud |
| LocalPhase.TurnSamples | relay/src/horizon_relay/engine.py:173-184 | In a turn on record every sample is the reading of its own call's reply, and a call that failed counts as an empty answer without confidence that asks for help |
| LocalPhase.TurnCritique | relay/src/horizon_relay/engine.py:189-202 | In a turn on record the critique is the reading of the reply to the critic's call, which follows the samples; a failed call is an unskipped rejection of severity 1; without a critic it is skipped with a pass, after a request for help skipped with a rejection |
| LocalPhase.TrustRestsOnReplies | relay/src/horizon_relay/policy.py:99-133 | Under the default rules an answer is only trusted if every call of its turn replied, nobody asked for help, the answer is not blank, and the critic, if there is one, passed it or found less than the rule demands |
| Engine.Run.JudgeLocally | relay/src/horizon_relay/engine.py:168-205 | The verdict is the policy's decision on evidence that is this tier's turn on record: its solve calls, then the critic's call unless it is disabled or help was asked for, and what the models said in them; none charged; it breaks off exactly when a call aborts |
| Engine.Run.TryExtract | relay/src/horizon_relay/engine.py:156-166 | One uncharged call, and an answer only if it is the single source in full |
| Runs.ExtractionIsWholeSource | relay/src/horizon_relay/policy.py:250-261 | Accepted if and only if the candidate names the only source and quotes the whole of it, and the source is not blank |
| Scans.ListsAreExact | relay/src/horizon_relay/engine.py:119-132 | A scan of the tiers that does not break off skips and judges, in order, exactly the positions up to where it stops, the others being untouched |
| LocalPhase.AskMeans | relay/src/horizon_relay/engine.py:119-132 | At most L(S + 1) calls; every verdict is the policy's decision on a turn on record; a chosen tier is the first unskipped one whose verdict did not escalate, and the lists end there; without one every tier is in the lists, skipped or not trusted |
| Engine.Run.AskLocals | relay/src/horizon_relay/engine.py:119-132 | The loop's records, verdicts, skipped tiers, route and error are those of that definition, with its meaning; none charged |
| LocalPhase.TrustedIsLiveRoute | relay/src/horizon_relay/engine.py:119-133 | The tier the loop stops at is the one the router's definition names, for any evidence that includes what was gathered |
| LocalPhase.NobodyTrustedIsCloud | relay/src/horizon_relay/engine.py:119-133 | When the loop passes over every tier, the router's definition names the cloud |
| Runs.PlanningIsSound | relay/src/horizon_relay/engine.py:207-225 | At most P calls; a plan is what the planner's last reply is read as; a validation error means that all P attempts were made; the books balance and the reserve stays intact |
| Engine.Run.MakePlan | relay/src/horizon_relay/engine.py:207-225 | The loop ends as that definition does, where replies are read as parse reads them and a plan must use the local models |
| Jobs.Drive | relay/src/horizon_relay/engine.py:227-244 | Carrying out any schedule step by step ends in the state its definition gives |
| Jobs.WorkersAreReachable | relay/src/horizon_relay/engine.py:146-147 | What any schedule leads to from an accepted plan is a reachable state, so every theorem about those applies |
| Jobs.SomeJobStarts | relay/src/horizon_relay/engine.py:146-147 | For every policy, provider and schedule there is an accepted plan with a resolvable reference on which the workers can be started |
| Jobs.WorkersAccounts | relay/src/horizon_relay/engine.py:227-244 | Whatever the schedule, the books balance, earlier records stay, the number of calls is bounded and the synthesis would be granted |
| Jobs.WorkersResults | relay/src/horizon_relay/engine.py:227-244 | Whatever the schedule, the stored results are sound, and complete if the workers completed |
| Jobs.SchedulesAgree | relay/src/horizon_relay/engine.py:227-244 | One job under two undisturbed schedules that run to their ends: both fail, or both complete with the same results, the same calls as a multiset, the same cost and the same synthesis asked for |
| Engine.Run.RunTasks | relay/src/horizon_relay/engine.py:227-244 | The run's records, results and budget become the workers' own, and it succeeds if and only if they completed |
| Engine.Run.WriteAnswer | relay/src/horizon_relay/engine.py:142-154 | If the budget grants the call it is no budget error, and what the call comes to decides: a text that is not blank is the answer, any other reply is invalid, a failed call is its error |
| RunTheorems.GenuineRunMeans | relay/src/horizon_relay/engine.py:112-154 | What every run promises, for all models and schedules: the budget's count is the number of cloud records; at most 2 + L(S + 1) + P + T(W + L) calls; the verdicts are decisions on turns on record; a local route made no cloud call and is the first unskipped tier that was trusted, or an exact copy; on the cloud route every tier was skipped or not trusted, an answer is what the cloud wrote last, a run that reaches its last call is not refused there, and what that call comes to is how the run ends |
| RunTheorems.RunJob | relay/src/horizon_relay/engine.py:144-147 | In every run the workers are started only on this request, the run's own settings and the accepted plan that the planner's last reply spells out |
| RunTheorems.RunsAgree | relay/src/horizon_relay/engine.py:112-154 | Two runs of one request that differ only in undisturbed schedules run to their ends ask the local models alike and start the same job; both end because the workers failed, or they end alike, with the same answer or error, the same results, the same synthesis, the same calls as a multiset and the same cost |
| RunEnds.AskingBreaksIff | relay/src/horizon_relay/engine.py:119-132 | Asking the local models breaks a run off if and only if one of their calls ends in something other than a reply or a RelayError |
| RunEnds.ExtractionDecides | relay/src/horizon_relay/engine.py:114-118 | What the extraction call comes to decides: an exact copy of the only source, whatever self-assessment comes with it, is the answer on the local route and is kept; a failed call ends the run; after anything else the local models are asked |
| RunEnds.PlanningEnds | relay/src/horizon_relay/engine.py:207-225 | After any number of replies without a usable plan, the next planning call decides: a usable plan is drawn, a failed call ends planning with its error, the budget may refuse it, and after P replies planning is given up |
| RunEnds.FirstUsablePlanRuns | relay/src/horizon_relay/engine.py:146-154 | When the cloud takes over to plan, the workers are started on the first usable plan among the replies that the budget affords, and a run whose workers completed ends as its synthesis call does |
| RunEnds.DirectAnswerEnds | relay/src/horizon_relay/engine.py:140-145 | When the cloud takes over to answer and may be called, the run makes one more call and ends as that call does |
| RunEnds.LocalAnswerIsSpotless | relay/src/horizon_relay/engine.py:126-132 | Under the default rules a local answer is the first reply of a turn on record in which every call replied, nobody asked for help and the critic let the answer pass |
| Runs.UsesLocalsIff | relay/src/horizon_relay/policy.py:359-366 | A plan is turned down if and only if the goal asks for at least bulk_parts things and fewer than min_parallel_local of its subtasks prefer a local model and depend on nothing |
| Engine.Run.Execute | relay/src/horizon_relay/engine.py:112-154 | The run's books, results, verdicts, skipped tiers, route and ending are those of the definition, so that all of the above holds of its fields: in particular the lists on the cloud route cover every local tier, a local answer is the first sample of the trusted tier or an exact copy, and the results are those of the workers of this request's job |
| Engine.RunRequest | relay/src/horizon_relay/engine.py:70-80 | A new run under any policy judges by the policy's own skip and decide functions and ends where the definition says, with its meaning |
| Runs.CallBoundFormula | relay/src/horizon_relay/engine.py:112-154 | The bound that every run keeps, written out |
| LocalPhase.SimulatorPredictsRun | relay/src/horizon_relay/tuning.py:91-115 | On a recording that includes the evidence a run's verdicts rest on, with no score within 0.00005 of its threshold, the simulator names the route that the run took |
| Policies.ScoreBetween | relay/src/horizon_relay/policy.py:347-351 | The score lies between any bounds on the available signals, and the clamp never changes it |
| Policies.MissingIsWeightless | relay/src/horizon_relay/policy.py:347-351 | Leaving a signal out equals giving it weight zero, whatever its value |
| Policies.AddedSignalPulls | relay/src/horizon_relay/policy.py:347-351 | A signal that becomes available lowers the score if and only if it is below it |
| Policies.ArrivalTurnsIff | relay/src/horizon_relay/policy.py:347-395 | A token signal that becomes available turns "escalate" into "trust" if and only if the goal is not a big one, no rule has an opinion on the new case, and the rounded score falls from the threshold or above to below it |
| Policies.TokensKeepEscalation | relay/src/horizon_relay/policy.py:326-395 | On what the models said: token statistics that become available and are no surer than the score never turn "escalate" into "trust" |
| Policies.TokensCanTurn | relay/src/horizon_relay/policy.py:326-395 | A concrete policy with the default rules and samples for which token statistics that become available do, under any rounding |
| Policies.ScoreMonotone | relay/src/horizon_relay/policy.py:347-351 | With the same signals available and none lower, the score is no lower |
| Signals.SignalsMean | relay/src/horizon_relay/policy.py:326-345 | For any ranges of the confidences, the pairwise agreements and the token statistics: self-doubt and inconsistency lie in the reversed ranges, token doubt too (hesitation in its own), one sample is never inconsistent, a missing statistic is a missing signal, and the other three are the severity, the complexity and whether anyone asked for help |
| Signals.PairCompared | relay/src/horizon_relay/policy.py:328-329 | Every pair of samples is compared exactly once |
| Signals.TwoSamples | relay/src/horizon_relay/policy.py:326-334 | For two samples, exactly: one minus the mean confidence, and one minus their agreement |
| Signals.TokenCountIsMost | relay/src/horizon_relay/policy.py:118-118 | The token rule looks at the longest answer |
| Signals.DisagreementDecides | relay/src/horizon_relay/policy.py:264-285 | Under the default policy two equally confident answers with a mild critique are trusted when they agree and not when they disagree |
| Signals.TierThresholdDecides | relay/src/horizon_relay/policy.py:372-373 | Each tier has its own threshold: the same answers in fair disagreement are trusted of "local" and not of "mid" |
| Policies.EscalationMonotone | relay/src/horizon_relay/policy.py:375-395 | On signals: raising one, the critic's severity or the request for help never turns "escalate" into "trust", through any list of the built-in rules and through rounding |
| Policies.DecisionMonotone | relay/src/horizon_relay/policy.py:326-395 | On what the models said: less confidence, less sure tokens, less agreement or a worse critique never turns "escalate" into "trust" |
| Policies.HelpAlwaysEscalates | relay/src/horizon_relay/policy.py:99-103 | Under the default rules a request for help escalates whatever else changes with it, the skipped critique included |
| Policies.NeverBackToTrust | relay/src/horizon_relay/policy.py:326-395 | Both together under the default rules: worse evidence, or a new request for help with any samples and critique, keeps "escalate" |
| Tuning.Combiner | relay/src/horizon_relay/tuning.py:67-77 | The accumulating loop computes the weighted mean of the available signals, at most one |
| Tuning.Simulate | relay/src/horizon_relay/tuning.py:91-115 | The scan returns the first tier that the simulated rules and score trust, or the cloud |
| Tuning.RoundedMeanIsClose | relay/src/horizon_relay/tuning.py:67-77 | The mean of rounded signals is within 0.00005 of the exact mean, for any weights |
| Tuning.ScoresCompareAlike | relay/src/horizon_relay/policy.py:335-336 | Away from the threshold, comparing the rounded score and comparing the score of rounded signals agree |
| Tuning.SimulatorRefinesRouter | relay/src/horizon_relay/tuning.py:91-115 | With settings that mirror a policy with the default rules, the simulator's route on a recorded profile is the router's, unless a score is within 0.00005 of its threshold |
| Tuning.Round4IsRounding | relay/src/horizon_relay/policy.py:335-336 | Rounding to four decimals, halves up, is monotone and within 0.00005, so the assumption on rounding can be met |
| Tuning.RoundingCanDisagree | relay/src/horizon_relay/tuning.py:91-115 | A concrete policy with the default rules, a critique, a recorded profile and its evidence on which the live run goes to the cloud and the simulator says "local" |
| Tuning.FirstSampleStandsForAll | relay/src/horizon_relay/tuning.py:80-88 | With token_signal "mean" the replayed token signal is the live one if and only if no sample has token statistics, or the first has them and its probability is the average |
| Tuning.FirstSampleCanMislead | relay/src/horizon_relay/tuning.py:80-88 | Two kinds of concrete samples on which it is not: only the second has statistics, or the second is less sure than the first |
| Tuning.Evaluate | relay/src/horizon_relay/tuning.py:118-136 | The routes are the simulator's, one per profile; each counter is the number of profiles it is about; the objective is their weighted balance, rounded |
| Tuning.TallyAddsUp | relay/src/horizon_relay/tuning.py:126-133 | Wrong local answers and cloud routes are disjoint parts of the cases, and paying the cloud for nothing always passes over a correct answer |
| Tuning.ObjectiveAdds | relay/src/horizon_relay/tuning.py:134-134 | The ranking is the sum of what each profile adds |
| Tuning.WorthOfRoutes | relay/src/horizon_relay/tuning.py:6-11 | What each route of a profile is worth: 1 when expected, 2 less for a wrong local answer, 1 less for paying the cloud for what a local model had right, a tenth less for the cloud and for every correct answer passed over |
| Results.CheckReportGroups | relay/src/horizon_relay/results.py:40-57 | The collecting loop finds the error, if any, that the definition of a valid grouping gives |
| Results.AnswerAcceptedIff | relay/src/horizon_relay/results.py:21-23 | A task answer is accepted if and only if it is one text field that is not blank and at most 16000 characters long without the white space around it |
| Results.ExtractionAcceptedIff | relay/src/horizon_relay/results.py:26-37 | An extraction is accepted if and only if it quotes a part, not just white space, of the only source it was given, under that source's name |
| Results.GroupOkIff | relay/src/horizon_relay/results.py:48-54 | A group is well formed if and only if it is a label of 1 to 300 characters with a nonempty list of IDs |
| Results.JudgmentIsDropped | relay/src/horizon_relay/results.py:79-94 | A reply is checked and stored as if its self-assessment were not there, and nothing else is dropped |
| Results.OnlyExtractionsCarryReports | relay/src/horizon_relay/results.py:21-37 | Of the accepted results only extractions carry a report ID, and each quotes a part of the only source it was given |
| Results.AsManyIdsAsInputs | relay/src/horizon_relay/results.py:43-45 | As many distinct IDs as inputs means that every input carries one and no two share one |
| Results.GroupingIsPartition | relay/src/horizon_relay/results.py:40-57 | An accepted grouping lists every report of its inputs exactly once across all groups, and inputs and reports are in bijection |
| Results.AcceptedIffPartition | relay/src/horizon_relay/results.py:40-57 | A grouping is accepted if and only if it is such a partition and there are inputs |
| EndToEnd.StoredGroupingsPartition | relay/src/horizon_relay/engine.py:247-250 | In every reachable state a stored grouping partitions the reports that its dependencies extracted, each quoted from its own source |
| Sweeps.Concurrent | relay/src/horizon_relay/evaluation.py:131-138 | The accumulated time is the number of milliseconds that at least two half-open call intervals contain, ties and zero-length calls included |
| Sweeps.SortedNetIsCover | relay/src/horizon_relay/evaluation.py:131-137 | After all edges up to a moment the running count is the number of calls that contain it |
| Sweeps.Delegation | relay/src/horizon_relay/evaluation.py:128-141 | Local subtasks are those whose last work call was local, local and cloud together are the distinct subtasks, and the overlap is the number of milliseconds in which at least two work calls run |
| Tokens.Search | relay/src/horizon_relay/tokens.py:16-19 | Finds the leftmost match of the key's pattern and where its trailing white space ends, or shows that there is none |
| Tokens.ValueSpan | relay/src/horizon_relay/tokens.py:14-29 | The span stays within the text; a string ends at the first quote with an even number of backslashes before it, another value at the first comma, brace or newline |
| Tokens.SpanIsEscapedText | relay/src/horizon_relay/tokens.py:20-25 | Where the key first occurs, followed by a string escaped in any way that section 7 of RFC 8259 allows, the span is exactly the escaped text |
| Tokens.ScannerRoundTrip | relay/src/horizon_relay/tokens.py:14-25 | Any string written as the field's value is read back from the span |
| Tokens.Offsets | relay/src/horizon_relay/tokens.py:37-40 | Every token's offsets are where its text begins and ends in the joined output |
| Tokens.AnswerTokens | relay/src/horizon_relay/tokens.py:32-44 | The chosen tokens, in order, are exactly those the span test selects, or all non-blank ones without a key |
| Tokens.SelectionExactIff | relay/src/horizon_relay/tokens.py:41-42 | For every way of cutting the output, the selected tokens are the non-blank ones that share a character with the span, if and only if the span is not an empty one strictly inside a non-blank token |
| Tokens.NonEmptyValueSelectsExactly | relay/src/horizon_relay/tokens.py:36-42 | With any non-empty string value the selection is exact however the output is cut |
| Tokens.EmptyAnswerSelectsItsToken | relay/src/horizon_relay/tokens.py:41-42 | A concrete output with an empty answer whose only token is selected although nothing overlaps |
| Stream.StreamRelay | integrations/openwebui/horizon_relay_pipe.py:187-208 | For every sequence of chunks and either ending, a reader can follow the tokens to the end outside every block, think blocks and fences balance, and it sees every chunk in its place and then the closing text; there is one heading for each change of step, one fence for each opening and one block for each stretch without answers |
| Stream.Streamer.Receive | integrations/openwebui/horizon_relay_pipe.py:190-202 | One more chunk of any kind keeps the flags in step with what a reader of the output has seen |
| Stream.Streamer.OpenStep | integrations/openwebui/horizon_relay_pipe.py:159-173 | Leaves the reader under the step's heading, in a fence if and only if the chunk is not reasoning, and marks a newly opened fence as fresh |
| Stream.BalancedThroughout | integrations/openwebui/horizon_relay_pipe.py:175-185 | In every prefix of readable output at most one think block is open, and a fence only inside it |
| Stream.PageNext | integrations/openwebui/horizon_relay_pipe.py:159-185 | What each token adds to the page: the tags and fences the interface looks for, and texts as they are |
| Stream.FreshMeansBlankSinceFence | integrations/openwebui/horizon_relay_pipe.py:168-170 | The fresh flag holds if and only if some fence was opened since which every chunk but answers was blank |
| Stream.ReasoningKeptIff | integrations/openwebui/horizon_relay_pipe.py:199-202 | Reasoning is kept whole if and only if it does not begin with a newline or something not blank came since every fence opened before it |
| Stream.JsonKeptIff | integrations/openwebui/horizon_relay_pipe.py:199-202 | JSON is kept whole if and only if it does not begin with a newline, or it continues an open fence and something not blank came since every fence opened |
| Stream.ChunkInItsPlace | integrations/openwebui/horizon_relay_pipe.py:190-202 | What the reader sees of any chunk: an answer outside, reasoning in prose, JSON in a fence, under the heading of its own step, with its text whole, or without leading newlines exactly when only blanks came since a fence opened |
| Stream.PayloadKept | integrations/openwebui/horizon_relay_pipe.py:199-202 | Over the whole stream the payload comes through in order, and nothing but newlines is lost |
| Stream.ClosingText | integrations/openwebui/horizon_relay_pipe.py:203-208 | After the chunks come the failure and its message, or the answer, unless an answer was streamed, and the summary |
| Stream.ReasoningTrimmedAfterBlankJson | integrations/openwebui/horizon_relay_pipe.py:199-201 | The smallest case: reasoning right after a fence of blank text loses its leading newlines too |
| Like.Compile | open-webui/backend/open_webui/internal/db.py:338-355 | The compile loop gives the recursive definition of the pattern's regular expression, or nothing that ever matches |
| Like.FullMatchIff | open-webui/backend/open_webui/internal/db.py:360-360 | A full match by search exists if and only if the text can be cut into one piece per part |
| Like.FreshIsLike | open-webui/backend/open_webui/internal/db.py:338-360 | Running the compiled pattern equals matching `%`, `_` and escapes directly, for every pattern, escape and text |
| Like.NeverIffDangles | open-webui/backend/open_webui/internal/db.py:340-354 | Compiling fails if and only if the pattern ends in an odd number of escape characters |
| Like.DanglingNeverMatches | open-webui/backend/open_webui/internal/db.py:349-354 | A dangling escape never matches anything |
| Like.LikeMeaning | open-webui/backend/open_webui/internal/db.py:338-360 | Any other pattern matches exactly the texts that can be cut into pieces for its parts |
| Like.CaseMakesNoDifference | open-webui/backend/open_webui/internal/db.py:330-360 | Case makes no difference in the pattern, the text or the escape; the answer is null exactly for a null pattern or text |
| Like.Matcher.Call | open-webui/backend/open_webui/internal/db.py:326-360 | Returns what direct matching returns, null for a null argument; every cached entry equals a fresh compile, at most 512 are kept, and a full cache is emptied before the new entry |
| Like.Matcher.Calls | open-webui/backend/open_webui/internal/db.py:326-360 | Over any history of calls every answer is the direct one |

## Left out

- Real model calls, HTTP, streaming transport and wall-clock timeouts: a call has an outcome; a timeout is the outcome that is not a `RelayError`.
- Prompts, command line, environment variables, other front ends: text and plumbing.
- `agreement`, content words, keyword counts, `task_complexity`, `request_parts`: parameters with values in [0, 1] or at least 1.
- `exp`, medians and the summary of log-probabilities in `answer_token_stats`: only span and selection are modelled.
- Reading of replies (`read_assessment`, `read_critique`, salvaging of broken JSON): parameters whose numbers lie in [0, 1].
- `RoutingPolicy.plans` and `_task_text`: whether to plan and what local models are asked are part of the request.
- The judgment that `split_judgment` sets aside for display: only what remains of the reply is modelled.
- Custom routing rules: the built-in ones, in any order and with any parameters, are modelled.
- Negative weights: the policy's own check looks only at the keys; the model takes weights as non-negative.
- Runs without an event callback: with none the engine skips the lock and the scheduler has fewer steps; all invariants are proved with callbacks present.
- Display bookkeeping of the decision graph other than the depth loop, and HTML rendering: no invariant beyond it.
- `tuning.search`: a finite grid over `evaluate`.
- Field names with regular-expression characters in `_value_span`: the name is taken literally, as `answer` is.
- Half surrogate pairs in `\u` escapes: a string of characters cannot hold them.
- The remainder of Open WebUI.
- Engine.RunRequest: the run deadline, the checks on the length of goal and sources, and the events at the start and end of a run are not modelled.
- Engine.Run.RunTasks: which worker's exception is reported when several fail is not modelled; the run ends as failed.
- Engine.Run.MakePlan: the text of the validation error handed back to the planner is not modelled.
- Stream.StreamRelay: text inside a chunk that itself looks like a marker counts as text; the output is read as tokens.
