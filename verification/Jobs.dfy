/** A plan and the workers that run it: what they start from, where a schedule leads them, and what they leave. */
module Jobs {
  import opened Json
  import opened Budgets
  import opened Tiers
  import opened Policies
  import opened Scans
  import Plans
  import Scheduler
  import SchedulerTheorems
  import SchedulerDeterminism
  import SchedulerCalls
  import EndToEnd

  // ---- What the workers start from ----

  /** A plan and everything its workers start from; `provider` is what the models answer to each of their calls. */
  datatype Job = Job(
    plan: Plans.Plan,
    sources: map<string, string>,
    tiers: seq<string>,
    limits: Limits,
    policy: Policy,
    spent: Spent,
    records: seq<Record>,
    line: Scheduler.Line,
    provider: (string, Scheduler.Payload) -> Scheduler.Outcome
  )

  /** The plan was accepted, the settings passed their checks, the books balance and the last call is reserved. */
  ghost predicate Startable(job: Job) {
    && Plans.Accepted(job.plan, job.sources, job.limits.maxTasks, job.tiers) && Ladder(job.tiers) && ValidLimits(job.limits)
    && job.policy.workerAttempts >= 1 && Reserved(job.limits, job.spent)
    && Scheduler.CloudRecords(job.records) == job.spent.calls
    && Scheduler.Orderly(job.line) && Scheduler.WatchersOnly(job.line.queue)
  }

  lemma AcceptedTasks(plan: Plans.Plan, sources: map<string, string>, maxTasks: nat, tiers: seq<string>)
    requires Plans.Accepted(plan, sources, maxTasks, tiers)
    ensures Distinct(Plans.Ids(plan.tasks)) && forall i :: 0 <= i < |plan.tasks| ==> plan.tasks[i].preferredTier in tiers
  {
  }

  /** The scheduler's configuration. */
  function ConfigOf(job: Job): Scheduler.Config
    requires Startable(job)
  {
    AcceptedTasks(job.plan, job.sources, job.limits.maxTasks, job.tiers);
    EndToEnd.Configure(job.plan.tasks, job.sources, job.tiers, job.limits, job.policy.workerAttempts,
                       job.policy.escalateFailed, job.spent, job.records, job.line, job.provider)
  }

  lemma ConfigIsValid(job: Job)
    requires Startable(job)
    ensures var c := ConfigOf(job);
      Scheduler.Valid(c) && EndToEnd.MadeFor(c, job.plan.tasks) && |c.tasks.Keys| <= job.limits.maxTasks
  {
    AcceptedTasks(job.plan, job.sources, job.limits.maxTasks, job.tiers);
    EndToEnd.AcceptedIsValid(ConfigOf(job), job.plan, job.limits.maxTasks);
  }

  // ---- Where a schedule leads ----

  /** Where the schedule leads from a state; a step that is not possible is passed over. */
  ghost function Driven(c: Scheduler.Config, schedule: seq<Scheduler.Step>): Scheduler.State {
    if schedule == [] then Scheduler.Init(c)
    else
      var n := |schedule| - 1;
      var s := Driven(c, schedule[..n]);
      if Scheduler.Shaped(c, s) && Scheduler.Enabled(s, schedule[n]) then Scheduler.Apply(c, s, schedule[n]) else s
  }

  lemma {:induction false} DrivenIsReachable(c: Scheduler.Config, schedule: seq<Scheduler.Step>)
    requires Scheduler.Valid(c)
    ensures SchedulerTheorems.Reachable(c, Driven(c, schedule))
  {
    if schedule == [] {
      assert SchedulerTheorems.Exec(c, []) == Some(Scheduler.Init(c));
    } else {
      var n := |schedule| - 1;
      DrivenIsReachable(c, schedule[..n]);
      SchedulerTheorems.ReachableInv(c, Driven(c, schedule[..n]));
      if Scheduler.Enabled(Driven(c, schedule[..n]), schedule[n]) {
        SchedulerTheorems.ReachableStep(c, Driven(c, schedule[..n]), schedule[n]);
      }
    }
  }

  lemma DrivenIsShaped(c: Scheduler.Config, schedule: seq<Scheduler.Step>)
    requires Scheduler.Valid(c)
    ensures Scheduler.Shaped(c, Driven(c, schedule))
  {
    DrivenIsReachable(c, schedule);
    SchedulerTheorems.ReachableInv(c, Driven(c, schedule));
  }

  lemma DrivenNext(c: Scheduler.Config, schedule: seq<Scheduler.Step>, i: nat, s: Scheduler.State)
    requires i < |schedule| && s == Driven(c, schedule[..i]) && Scheduler.Shaped(c, s)
    ensures Driven(c, schedule[..i + 1]) == if Scheduler.Enabled(s, schedule[i]) then Scheduler.Apply(c, s, schedule[i]) else s
  {
    assert schedule[..i + 1][..i] == schedule[..i];
  }

  /** The workers, interleaved as the schedule says. */
  method Drive(c: Scheduler.Config, schedule: seq<Scheduler.Step>) returns (s: Scheduler.State)
    requires Scheduler.Valid(c)
    ensures s == Driven(c, schedule)
  {
    s := Scheduler.Init(c);
    for i := 0 to |schedule|
      invariant s == Driven(c, schedule[..i])
    {
      DrivenIsShaped(c, schedule[..i]);
      DrivenNext(c, schedule, i, s);
      if Scheduler.Enabled(s, schedule[i]) {
        s := Scheduler.Apply(c, s, schedule[i]);
      }
    }
    assert schedule[..|schedule|] == schedule;
  }

  /** At most `per` calls were added for each of at most `many` tasks. */
  ghost predicate FewCalls(before: seq<Record>, after: seq<Record>, many: nat, per: nat) {
    |after| <= |before| + Times(many, per)
  }

  ghost predicate Balanced(limits: Limits, records: seq<Record>, spent: Spent) {
    Scheduler.CloudRecords(records) == spent.calls && Within(limits, spent)
  }

  /** What the workers leave behind, whatever the schedule. */
  lemma WorkersLeave(c: Scheduler.Config, s: Scheduler.State, maxTasks: nat, perTask: nat)
    requires Scheduler.Valid(c) && SchedulerTheorems.Reachable(c, s) && |c.tasks.Keys| <= maxTasks
    requires perTask == c.workerAttempts + |c.tiers| - 1
    ensures Balanced(c.limits, s.records, s.spent) && FewCalls(c.records, s.records, maxTasks, perTask) && c.records <= s.records
    ensures c.limits.cloudEnabled && c.limits.cloudCalls >= 1 ==> Refusal(c.limits, s.spent, Synthesize).None?
    ensures SchedulerTheorems.StoreSound(c, s.results)
    ensures s.main.Completed? ==> s.results.Keys == c.tasks.Keys
  {
    SchedulerTheorems.BudgetSafe(c, s);
    SchedulerCalls.ReachableCalls(c, s);
    SchedulerTheorems.WorkerCallBound(c, s, perTask);
    TimesIsProduct(|c.tasks.Keys|, perTask);
    TimesMonotone(|c.tasks.Keys|, maxTasks, perTask);
    SchedulerTheorems.StoredResultsAreSound(c, s);
    if s.main.Completed? {
      SchedulerTheorems.BatchesAreLayers(c, s);
    }
  }

  /** What is left when the workers stop, or at the moment the schedule ends. */
  ghost function Workers(job: Job, schedule: seq<Scheduler.Step>): Scheduler.State
    requires Startable(job)
  {
    Driven(ConfigOf(job), schedule)
  }

  lemma WorkersAreReachable(job: Job, schedule: seq<Scheduler.Step>)
    requires Startable(job)
    ensures Scheduler.Valid(ConfigOf(job)) && EndToEnd.MadeFor(ConfigOf(job), job.plan.tasks)
    ensures |ConfigOf(job).tasks.Keys| <= job.limits.maxTasks
    ensures SchedulerTheorems.Reachable(ConfigOf(job), Workers(job, schedule))
  {
    ConfigIsValid(job);
    DrivenIsReachable(ConfigOf(job), schedule);
  }

  lemma WorkersAccounts(job: Job, schedule: seq<Scheduler.Step>, perTask: nat)
    requires Startable(job) && perTask == job.policy.workerAttempts + |job.tiers| - 1
    ensures var end := Workers(job, schedule);
      && Balanced(job.limits, end.records, end.spent) && job.records <= end.records
      && FewCalls(job.records, end.records, job.limits.maxTasks, perTask)
      && (job.limits.cloudEnabled && job.limits.cloudCalls >= 1 ==> Refusal(job.limits, end.spent, Synthesize).None?)
  {
    WorkersAreReachable(job, schedule);
    WorkersLeave(ConfigOf(job), Workers(job, schedule), job.limits.maxTasks, perTask);
  }

  /** What the run holds afterwards is sound, and complete if the workers completed. */
  lemma WorkersResults(job: Job, schedule: seq<Scheduler.Step>)
    requires Startable(job)
    ensures SchedulerTheorems.StoreSound(ConfigOf(job), Workers(job, schedule).results)
    ensures Workers(job, schedule).main.Completed? ==> Workers(job, schedule).results.Keys == ConfigOf(job).tasks.Keys
  {
    WorkersAreReachable(job, schedule);
    WorkersLeave(ConfigOf(job), Workers(job, schedule), job.limits.maxTasks, job.policy.workerAttempts + |job.tiers| - 1);
  }

  /** The workers run this job's tasks on its tiers and sources, under its limits and its policy's attempts and escalation. */
  lemma ConfigIsTheJobs(job: Job, i: nat)
    requires Startable(job) && i < |job.plan.tasks|
    ensures var c := ConfigOf(job);
      && job.plan.tasks[i].id in c.tasks && c.tasks[job.plan.tasks[i].id] == job.plan.tasks[i]
      && c.tiers == job.tiers && c.workerAttempts == job.policy.workerAttempts && c.records == job.records
      && c.escalateFailed == job.policy.escalateFailed && c.sources == job.sources && c.limits == job.limits
      && c.provider == job.provider
  {
    AcceptedTasks(job.plan, job.sources, job.limits.maxTasks, job.tiers);
    EndToEnd.ByIdTasks(job.plan.tasks);
  }

  /**
   Whatever the schedule, a subtask is given up only after W calls to its own tier and, if the policy escalates failed
   subtasks, one to every larger tier, the cloud last; a cloud subtask after its one call.
   */
  lemma GivenUpAfterAll(job: Job, schedule: seq<Scheduler.Step>, i: nat)
    requires Startable(job) && i < |job.plan.tasks|
    requires var end := Workers(job, schedule); var id := job.plan.tasks[i].id;
      id in end.workers && end.workers[id].pc == Scheduler.Broken(Scheduler.Exhausted)
    ensures job.plan.tasks[i].preferredTier in job.tiers && job.records <= Workers(job, schedule).records
    ensures var calls := SchedulerCalls.CallsFor(Workers(job, schedule).records[|job.records|..], job.plan.tasks[i].id);
      && TriesInTurn(SchedulerCalls.TiersOf(calls), job.tiers, IndexOf(job.tiers, job.plan.tasks[i].preferredTier),
                     job.policy.workerAttempts, job.policy.escalateFailed)
      && (job.policy.escalateFailed ==> calls != [] && calls[|calls| - 1].tier == CLOUD)
  {
    ConfigIsTheJobs(job, i);
    WorkersAreReachable(job, schedule);
    SchedulerCalls.GaveUpAfterAll(ConfigOf(job), Workers(job, schedule), job.plan.tasks[i].id);
  }

  method RunPlan(job: Job, schedule: seq<Scheduler.Step>) returns (end: Scheduler.State)
    requires Startable(job)
    ensures end == Workers(job, schedule)
  {
    ConfigIsValid(job);
    end := Drive(ConfigOf(job), schedule);
  }

  // ---- A job that can be started ----

  function ExampleJob(policy: Policy, provider: (string, Scheduler.Payload) -> Scheduler.Outcome): Job {
    Job(Plans.Plan([Plans.DOTTED_TASK], "Answer"), map["b" := "text"], ["local", "cloud"], Limits(8, 2, 5, 2, true),
        policy, Spent(0, 0), [], Scheduler.Line([], [], 0), provider)
  }

  lemma TwoTiers()
    ensures Ladder(["local", "cloud"])
  {
  }

  /** The assumptions can be met: a one-task plan with the default limits can be started, and every schedule leads somewhere. */
  lemma SomeJobStarts(policy: Policy, provider: (string, Scheduler.Payload) -> Scheduler.Outcome, schedule: seq<Scheduler.Step>)
    requires policy.workerAttempts >= 1
    ensures Startable(ExampleJob(policy, provider))
    ensures SchedulerTheorems.Reachable(ConfigOf(ExampleJob(policy, provider)), Workers(ExampleJob(policy, provider), schedule))
  {
    ExampleStarts(policy, provider);
    WorkersAreReachable(ExampleJob(policy, provider), schedule);
  }

  lemma ExampleStarts(policy: Policy, provider: (string, Scheduler.Payload) -> Scheduler.Outcome)
    requires policy.workerAttempts >= 1
    ensures Startable(ExampleJob(policy, provider))
  {
    Plans.DottedPlanAccepted();
    TwoTiers();
  }

  // ---- The same job under two schedules ----

  /** The steps of a schedule that were possible in turn. */
  ghost function Trace(c: Scheduler.Config, schedule: seq<Scheduler.Step>): seq<Scheduler.Step> {
    if schedule == [] then []
    else
      var n := |schedule| - 1;
      var s := Driven(c, schedule[..n]);
      Trace(c, schedule[..n])
      + if Scheduler.Shaped(c, s) && Scheduler.Enabled(s, schedule[n]) then [schedule[n]] else []
  }

  lemma {:induction false} TraceLeads(c: Scheduler.Config, schedule: seq<Scheduler.Step>)
    ensures SchedulerTheorems.Exec(c, Trace(c, schedule)) == Some(Driven(c, schedule))
  {
    if schedule != [] {
      var n := |schedule| - 1;
      TraceLeads(c, schedule[..n]);
      TraceNext(c, schedule, Trace(c, schedule[..n]), Driven(c, schedule[..n]));
    }
  }

  lemma TraceNext(c: Scheduler.Config, schedule: seq<Scheduler.Step>, steps: seq<Scheduler.Step>, s: Scheduler.State)
    requires schedule != [] && steps == Trace(c, schedule[..|schedule| - 1]) && s == Driven(c, schedule[..|schedule| - 1])
    requires SchedulerTheorems.Exec(c, steps) == Some(s)
    ensures SchedulerTheorems.Exec(c, Trace(c, schedule)) == Some(Driven(c, schedule))
  {
    var step := schedule[|schedule| - 1];
    if Scheduler.Shaped(c, s) && Scheduler.Enabled(s, step) {
      SchedulerTheorems.ExecAppend(c, steps, s, step);
    } else {
      assert steps + [] == steps;
    }
  }

  /** Nobody interrupts, and every reply is what the provider answers to that call. */
  ghost predicate Undisturbed(job: Job, schedule: seq<Scheduler.Step>)
    requires Startable(job)
  {
    SchedulerTheorems.Undisturbed(ConfigOf(job), Trace(ConfigOf(job), schedule))
  }

  /** What the cloud is asked to synthesize. */
  datatype Synthesis = Synthesis(sources: map<string, string>, instruction: string, results: map<string, Json>)

  function SynthesisOf(job: Job, end: Scheduler.State): Synthesis {
    Synthesis(job.sources, job.plan.finalInstruction, end.results)
  }

  /**
   Both fail, or both complete with the same results, the same calls after the first n as a multiset, the same number
   of calls and the same budget spent.
   */
  ghost predicate SameEnd(n: nat, a: Scheduler.State, b: Scheduler.State) {
    && a.main == b.main
    && (a.main.Completed? ==>
          && a.results == b.results && a.spent == b.spent && n <= |a.records| == |b.records|
          && multiset(a.records[n..]) == multiset(b.records[n..]))
  }

  lemma StatesAgree(c: Scheduler.Config, steps1: seq<Scheduler.Step>, s1: Scheduler.State, steps2: seq<Scheduler.Step>,
                    s2: Scheduler.State)
    requires Scheduler.Valid(c) && Scheduler.Over(s1) && Scheduler.Over(s2)
    requires SchedulerTheorems.Undisturbed(c, steps1) && SchedulerTheorems.Exec(c, steps1) == Some(s1)
    requires SchedulerTheorems.Undisturbed(c, steps2) && SchedulerTheorems.Exec(c, steps2) == Some(s2)
    ensures SameEnd(|c.records|, s1, s2)
  {
    SchedulerDeterminism.AllOrNothing(c, steps1, s1, steps2, s2);
    if s1.main.Completed? {
      SchedulerCalls.SameCallsSameResults(c, steps1, s1, steps2, s2);
      SameLength(s1.records[|c.records|..], s2.records[|c.records|..]);
    }
  }

  lemma SameLength(a: seq<Record>, b: seq<Record>)
    requires multiset(a) == multiset(b)
    ensures |a| == |b|
  {
    assert |multiset(a)| == |a| && |multiset(b)| == |b|;
  }

  lemma DrivenAgree(c: Scheduler.Config, one: seq<Scheduler.Step>, two: seq<Scheduler.Step>)
    requires Scheduler.Valid(c) && Scheduler.Over(Driven(c, one)) && Scheduler.Over(Driven(c, two))
    requires SchedulerTheorems.Undisturbed(c, Trace(c, one)) && SchedulerTheorems.Undisturbed(c, Trace(c, two))
    ensures SameEnd(|c.records|, Driven(c, one), Driven(c, two))
  {
    TraceLeads(c, one);
    TraceLeads(c, two);
    StatesAgree(c, Trace(c, one), Driven(c, one), Trace(c, two), Driven(c, two));
  }

  /** One job under two undisturbed schedules that run to their end: the same end, and the same synthesis asked for. */
  lemma SchedulesAgree(job: Job, one: seq<Scheduler.Step>, two: seq<Scheduler.Step>)
    requires Startable(job) && Undisturbed(job, one) && Undisturbed(job, two)
    requires Scheduler.Over(Workers(job, one)) && Scheduler.Over(Workers(job, two))
    ensures SameEnd(|job.records|, Workers(job, one), Workers(job, two))
    ensures Workers(job, one).main.Completed? ==>
      SynthesisOf(job, Workers(job, one)) == SynthesisOf(job, Workers(job, two))
  {
    ConfigIsValid(job);
    DrivenAgree(ConfigOf(job), one, two);
  }
}
