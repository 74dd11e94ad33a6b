/** Whole runs whose plans are read as parse reads them and whose workers follow a schedule. */
module RunTheorems {
  import opened Json
  import opened Budgets
  import opened Tiers
  import opened LocalPhase
  import opened Jobs
  import opened Runs
  import Plans
  import Scheduler

  // ---- The parts as they are ----

  function FinishOf(end: Scheduler.State): Finish {
    Finish(Books(end.records, end.spent), end.results, end.main)
  }

  /** The draft is the plan that the reply offers, and there is none only if the reply offers none. */
  ghost predicate DraftsAt(s: Setup, parts: Parts, req: Request, value: Json) {
    match parts.draft(req, value)
    case Some(plan) => Offers(s, req, value, plan)
    case None => forall plan :: !Offers(s, req, value, plan)
  }

  /** The workers follow the schedule on this job. */
  ghost predicate DoesAt(parts: Parts, schedule: seq<Scheduler.Step>, job: Job) {
    Startable(job) ==> parts.work(job) == FinishOf(Workers(job, schedule))
  }

  /** Replies are read as parse reads them, and the workers follow the schedule. */
  ghost predicate Genuine(s: Setup, parts: Parts, schedule: seq<Scheduler.Step>) {
    (forall req, value :: DraftsAt(s, parts, req, value)) && forall job :: DoesAt(parts, schedule, job)
  }

  ghost function PartsOf(s: Setup, schedule: seq<Scheduler.Step>): Parts {
    Parts((req: Request, value: Json) => if plan :| Offers(s, req, value, plan) then Some(plan) else None,
          (job: Job) => if Startable(job) then FinishOf(Workers(job, schedule)) else Finish(EMPTY, map[], Scheduler.Running))
  }

  /** Such parts exist for any schedule. */
  lemma PartsAreGenuine(s: Setup, schedule: seq<Scheduler.Step>)
    ensures Genuine(s, PartsOf(s, schedule), schedule)
  {
    forall req, value ensures DraftsAt(s, PartsOf(s, schedule), req, value) {
    }
    forall job ensures DoesAt(PartsOf(s, schedule), schedule, job) {
    }
  }

  /** The job is this request's, on the run's own settings, and its plan is what the planner replied last before it. */
  ghost predicate JobFor(s: Setup, req: Request, job: Job) {
    && Startable(job) && job.sources == req.sources && job.tiers == s.tiers && job.limits == s.limits
    && job.policy == s.policy && job.provider == s.world.provider && job.line == s.world.line
    && job.records != [] && Outcome(s.world, |job.records| - 1).Replied?
    && Offers(s, req, Outcome(s.world, |job.records| - 1).value, job.plan)
  }

  lemma JobStarts(s: Setup, req: Request, b: Books, plan: Plans.Plan)
    requires Configured(s) && Sound(s.limits, b) && Reserved(s.limits, b.spent)
    requires Plans.Accepted(plan, req.sources, s.limits.maxTasks, s.tiers)
    ensures Startable(JobOf(s, req, b, plan))
  {
  }

  lemma PlanIsOffered(s: Setup, req: Request, parts: Parts, b: Books, plan: Plans.Plan)
    requires PlannedBy(s, req, parts, b, plan) && DraftsAt(s, parts, req, Outcome(s.world, |b.records| - 1).value)
    ensures Offers(s, req, Outcome(s.world, |b.records| - 1).value, plan)
  {
  }

  lemma OfferIsAccepted(s: Setup, req: Request, value: Json, plan: Plans.Plan)
    requires Offers(s, req, value, plan)
    ensures Plans.Accepted(plan, req.sources, s.limits.maxTasks, s.tiers)
  {
  }

  lemma LeftBy(job: Job, end: Scheduler.State, per: nat)
    requires Balanced(job.limits, end.records, end.spent) && job.records <= end.records
    requires FewCalls(job.records, end.records, job.limits.maxTasks, per)
    requires job.limits.cloudEnabled && job.limits.cloudCalls >= 1 ==> Refusal(job.limits, end.spent, Synthesize).None?
    ensures Left(job, FinishOf(end), per)
  {
  }

  lemma WorkersLeft(job: Job, schedule: seq<Scheduler.Step>, per: nat)
    requires Startable(job) && per == job.policy.workerAttempts + |job.tiers| - 1
    ensures Left(job, FinishOf(Workers(job, schedule)), per)
  {
    WorkersAccounts(job, schedule, per);
    LeftBy(job, Workers(job, schedule), per);
  }

  lemma WorkLeft(parts: Parts, job: Job, schedule: seq<Scheduler.Step>, per: nat)
    requires Startable(job) && DoesAt(parts, schedule, job) && per == job.policy.workerAttempts + |job.tiers| - 1
    ensures Left(job, parts.work(job), per)
  {
    WorkersLeft(job, schedule, per);
  }

  lemma JobLeft(s: Setup, req: Request, parts: Parts, b: Books, plan: Plans.Plan, schedule: seq<Scheduler.Step>, per: nat)
    requires Startable(JobOf(s, req, b, plan)) && DoesAt(parts, schedule, JobOf(s, req, b, plan))
    requires per == s.policy.workerAttempts + |s.tiers| - 1
    ensures Left(JobOf(s, req, b, plan), parts.work(JobOf(s, req, b, plan)), per)
  {
    WorkLeft(parts, JobOf(s, req, b, plan), schedule, per);
  }

  lemma AcceptedLeft(s: Setup, req: Request, parts: Parts, b: Books, plan: Plans.Plan, schedule: seq<Scheduler.Step>, per: nat)
    requires Configured(s) && Sound(s.limits, b) && Reserved(s.limits, b.spent)
    requires Plans.Accepted(plan, req.sources, s.limits.maxTasks, s.tiers) && DoesAt(parts, schedule, JobOf(s, req, b, plan))
    requires per == s.policy.workerAttempts + |s.tiers| - 1
    ensures Left(JobOf(s, req, b, plan), parts.work(JobOf(s, req, b, plan)), per)
  {
    JobStarts(s, req, b, plan);
    JobLeft(s, req, parts, b, plan, schedule, per);
  }

  lemma GenuineLeaves(s: Setup, req: Request, parts: Parts, schedule: seq<Scheduler.Step>, per: nat)
    requires Configured(s) && Genuine(s, parts, schedule) && per == s.policy.workerAttempts + |s.tiers| - 1
    ensures Leaves(s, req, parts, per)
  {
    forall b, plan ensures LeavesAt(s, req, parts, per, b, plan) {
      if Sound(s.limits, b) && Reserved(s.limits, b.spent) && PlannedBy(s, req, parts, b, plan) {
        var value := Outcome(s.world, |b.records| - 1).value;
        assert DraftsAt(s, parts, req, value);
        PlanIsOffered(s, req, parts, b, plan);
        OfferIsAccepted(s, req, value, plan);
        assert DoesAt(parts, schedule, JobOf(s, req, b, plan));
        AcceptedLeft(s, req, parts, b, plan, schedule, per);
      }
    }
  }

  /** What every run promises, whatever the models do and however the workers interleave. */
  lemma GenuineRunMeans(s: Setup, req: Request, parts: Parts, schedule: seq<Scheduler.Step>)
    requires Configured(s) && Genuine(s, parts, schedule)
    ensures Meaning(s, req, parts, RunOf(s, req, parts))
  {
    AllButOne(s.tiers);
    GenuineLeaves(s, req, parts, schedule, s.policy.workerAttempts + |Locals(s.tiers)|);
    RunMeans(s, req, parts);
  }

  // ---- What the workers were started on ----

  lemma JobIsFor(s: Setup, req: Request, b: Books, plan: Plans.Plan)
    requires Configured(s) && Sound(s.limits, b) && Reserved(s.limits, b.spent)
    requires b.records != [] && Outcome(s.world, |b.records| - 1).Replied?
    requires Offers(s, req, Outcome(s.world, |b.records| - 1).value, plan)
    ensures JobFor(s, req, JobOf(s, req, b, plan))
  {
    OfferIsAccepted(s, req, Outcome(s.world, |b.records| - 1).value, plan);
    JobStarts(s, req, b, plan);
  }

  lemma JobDrawn(s: Setup, req: Request, parts: Parts, b: Books) returns (books: Books, plan: Plans.Plan)
    requires Sound(s.limits, b) && Reserved(s.limits, b.spent) && Cloud(s, req, parts, b).job.Some?
    ensures Cloud(s, req, parts, b).job == Some(JobOf(s, req, books, plan))
    ensures Sound(s.limits, books) && Reserved(s.limits, books.spent) && PlannedBy(s, req, parts, books, plan)
  {
    PlanningIsSound(s, req, parts, b);
    var p := Planning(s, req, parts, b, 0);
    return p.books, p.plan;
  }

  lemma PlannedIsFor(s: Setup, req: Request, parts: Parts, schedule: seq<Scheduler.Step>, b: Books, plan: Plans.Plan)
    requires Configured(s) && Genuine(s, parts, schedule) && Sound(s.limits, b) && Reserved(s.limits, b.spent)
    requires PlannedBy(s, req, parts, b, plan)
    ensures JobFor(s, req, JobOf(s, req, b, plan)) && DoesAt(parts, schedule, JobOf(s, req, b, plan))
  {
    assert DraftsAt(s, parts, req, Outcome(s.world, |b.records| - 1).value);
    PlanIsOffered(s, req, parts, b, plan);
    JobIsFor(s, req, b, plan);
  }

  lemma CloudJob(s: Setup, req: Request, parts: Parts, schedule: seq<Scheduler.Step>, b: Books)
    requires Configured(s) && Genuine(s, parts, schedule) && Sound(s.limits, b) && Reserved(s.limits, b.spent)
    ensures var job := Cloud(s, req, parts, b).job; job.Some? ==> JobFor(s, req, job.value)
  {
    if Cloud(s, req, parts, b).job.Some? {
      var books, plan := JobDrawn(s, req, parts, b);
      PlannedIsFor(s, req, parts, schedule, books, plan);
    }
  }

  /** In a run the workers are only started on the accepted plan of the planner's last reply to this request. */
  lemma RunJob(s: Setup, req: Request, parts: Parts, schedule: seq<Scheduler.Step>)
    requires Configured(s) && Genuine(s, parts, schedule)
    ensures var job := JobIn(RunOf(s, req, parts)); job.Some? ==> JobFor(s, req, job.value)
  {
    LocallyIsFree(s, req);
    CloudJob(s, req, parts, schedule, Books(Locally(s, req).calls, Spent(0, 0)));
  }

  // ---- The same request under two schedules ----

  lemma OffersOne(s: Setup, req: Request, value: Json, one: Plans.Plan, two: Plans.Plan)
    requires Offers(s, req, value, one) && Offers(s, req, value, two)
    ensures one == two
  {
  }

  lemma DraftsAgree(s: Setup, one: Parts, two: Parts, req: Request, value: Json)
    requires DraftsAt(s, one, req, value) && DraftsAt(s, two, req, value)
    ensures one.draft(req, value) == two.draft(req, value)
  {
    if one.draft(req, value).Some? && two.draft(req, value).Some? {
      OffersOne(s, req, value, one.draft(req, value).value, two.draft(req, value).value);
    }
  }

  lemma {:induction false} PlanningAgrees(s: Setup, req: Request, one: Parts, two: Parts, b: Books, attempt: nat)
    requires attempt <= s.policy.planAttempts && forall value :: one.draft(req, value) == two.draft(req, value)
    ensures Planning(s, req, one, b, attempt) == Planning(s, req, two, b, attempt)
    decreases s.policy.planAttempts - attempt
  {
    if attempt < s.policy.planAttempts && CallOf(s, b, CLOUD, Operation.Plan).Value? {
      PlanningAgrees(s, req, one, two, Booked(s.limits, b, CLOUD, Operation.Plan, attempt + 1), attempt + 1);
    }
  }

  /** The same calls in some order, at the same cost. */
  ghost predicate SameBooks(a: Books, b: Books) {
    multiset(a.records) == multiset(b.records) && |a.records| == |b.records| && a.spent == b.spent
  }

  /** Both failed or both completed, and then with the same results and the same books. */
  ghost predicate SameFinish(a: Finish, b: Finish) {
    a.main == b.main && Ended(a) && (a.main.Completed? ==> a.results == b.results && SameBooks(a.books, b.books))
  }

  predicate Ended(a: Finish) {
    a.main.Completed? || a.main.Stopped?
  }

  /** What the cloud was asked to synthesize, if it came to that. */
  function SynthesisIn(e: CloudEnd): Option<Synthesis> {
    if e.reached && e.job.Some? then Some(Synthesis(e.job.value.sources, e.job.value.plan.finalInstruction, e.results)) else None
  }

  /** Both ended because the workers failed, or they ended alike, with the same results and the same books. */
  ghost predicate SameEnding(a: CloudEnd, b: CloudEnd) {
    && a.job == b.job && a.reached == b.reached && a.ending == b.ending && SynthesisIn(a) == SynthesisIn(b)
    && (a.ending == Stopped(TasksFailed) || (a.results == b.results && SameBooks(a.books, b.books)))
  }

  lemma SameCall(s: Setup, a: Books, b: Books, tier: string, op: Operation, attempt: nat)
    requires SameBooks(a, b)
    ensures CallOf(s, a, tier, op) == CallOf(s, b, tier, op)
    ensures SameBooks(Booked(s.limits, a, tier, op, attempt), Booked(s.limits, b, tier, op, attempt))
  {
  }

  lemma AfterAgrees(s: Setup, job: Job, a: Finish, b: Finish)
    requires SameFinish(a, b)
    ensures SameEnding(After(s, job, a), After(s, job, b))
  {
    if a.main.Completed? {
      SameCall(s, a.books, b.books, CLOUD, Synthesize, 0);
    }
  }

  lemma CloudAgrees(s: Setup, req: Request, one: Parts, two: Parts, b: Books)
    requires forall value :: one.draft(req, value) == two.draft(req, value)
    requires var job := Cloud(s, req, one, b).job; job.Some? ==> SameFinish(one.work(job.value), two.work(job.value))
    ensures SameEnding(Cloud(s, req, one, b), Cloud(s, req, two, b))
  {
    if req.plans {
      PlanningAgrees(s, req, one, two, b, 0);
      var p := Planning(s, req, one, b, 0);
      if p.Drawn? {
        var job := JobOf(s, req, p.books, p.plan);
        AfterAgrees(s, job, one.work(job), two.work(job));
      }
    }
  }

  /** The workers run to their end and nobody interrupts them. */
  ghost predicate RunsThrough(job: Job, schedule: seq<Scheduler.Step>) {
    Startable(job) ==> Undisturbed(job, schedule) && Scheduler.Over(Workers(job, schedule))
  }

  lemma SplitCalls(before: seq<Scheduler.Record>, all: seq<Scheduler.Record>)
    requires before <= all
    ensures multiset(all) == multiset(before) + multiset(all[|before|..])
  {
    assert all == before + all[|before|..];
  }

  lemma SameFinishes(before: seq<Scheduler.Record>, a: Scheduler.State, b: Scheduler.State)
    requires SameEnd(|before|, a, b) && before <= a.records && before <= b.records && Scheduler.Over(a)
    ensures SameFinish(FinishOf(a), FinishOf(b))
  {
    SplitCalls(before, a.records);
    SplitCalls(before, b.records);
  }

  lemma RecordsKept(job: Job, schedule: seq<Scheduler.Step>)
    requires Startable(job)
    ensures job.records <= Workers(job, schedule).records
  {
    WorkersAccounts(job, schedule, job.policy.workerAttempts + |job.tiers| - 1);
  }

  lemma WorkersAgree(job: Job, one: seq<Scheduler.Step>, two: seq<Scheduler.Step>)
    requires Startable(job) && RunsThrough(job, one) && RunsThrough(job, two)
    ensures SameFinish(FinishOf(Workers(job, one)), FinishOf(Workers(job, two)))
  {
    SchedulesAgree(job, one, two);
    RecordsKept(job, one);
    RecordsKept(job, two);
    SameFinishes(job.records, Workers(job, one), Workers(job, two));
  }

  lemma WorkAgrees(one: Parts, two: Parts, scheduleOne: seq<Scheduler.Step>, scheduleTwo: seq<Scheduler.Step>, job: Job)
    requires DoesAt(one, scheduleOne, job) && DoesAt(two, scheduleTwo, job)
    requires Startable(job) && RunsThrough(job, scheduleOne) && RunsThrough(job, scheduleTwo)
    ensures SameFinish(one.work(job), two.work(job))
  {
    WorkersAgree(job, scheduleOne, scheduleTwo);
  }

  ghost predicate AllThrough(job: Option<Job>, schedule: seq<Scheduler.Step>) {
    job.Some? ==> RunsThrough(job.value, schedule)
  }

  /**
   Two runs of one request that differ only in how their workers interleave, undisturbed and to the end: the local
   models are asked the same, the workers are started on the same job, and either both runs end because the workers
   failed, or they end alike, with the same results, the same synthesis, the same calls and the same cost.
   */
  lemma RunsAgree(s: Setup, req: Request, one: Parts, two: Parts, scheduleOne: seq<Scheduler.Step>,
                  scheduleTwo: seq<Scheduler.Step>)
    requires Configured(s) && Genuine(s, one, scheduleOne) && Genuine(s, two, scheduleTwo)
    requires AllThrough(JobIn(RunOf(s, req, one)), scheduleOne) && AllThrough(JobIn(RunOf(s, req, one)), scheduleTwo)
    ensures SameRun(RunOf(s, req, one), RunOf(s, req, two))
  {
    RunJob(s, req, one, scheduleOne);
    var b := Books(Locally(s, req).calls, Spent(0, 0));
    AgreeOnDrafts(s, req, one, two, scheduleOne, scheduleTwo);
    if JobIn(RunOf(s, req, one)).Some? {
      var job := JobIn(RunOf(s, req, one)).value;
      assert DoesAt(one, scheduleOne, job) && DoesAt(two, scheduleTwo, job);
      WorkAgrees(one, two, scheduleOne, scheduleTwo, job);
    }
    if RunOf(s, req, one).cloud.Some? {
      CloudAgrees(s, req, one, two, b);
    }
  }

  ghost predicate SameRun(a: Whole, b: Whole) {
    a.local == b.local && a.cloud.Some? == b.cloud.Some? && (a.cloud.Some? ==> SameEnding(a.cloud.value, b.cloud.value))
  }

  lemma AgreeOnDrafts(s: Setup, req: Request, one: Parts, two: Parts, scheduleOne: seq<Scheduler.Step>,
                      scheduleTwo: seq<Scheduler.Step>)
    requires Genuine(s, one, scheduleOne) && Genuine(s, two, scheduleTwo)
    ensures forall value :: one.draft(req, value) == two.draft(req, value)
  {
    forall value ensures one.draft(req, value) == two.draft(req, value) {
      assert DraftsAt(s, one, req, value) && DraftsAt(s, two, req, value);
      DraftsAgree(s, one, two, req, value);
    }
  }
}
