/**
 A whole run as a function of what it is given: the request, the settings, what the models say and how the workers
 interleave. What a run promises is proved of this function.
 */
module Runs {
  import opened Json
  import opened Budgets
  import opened Tiers
  import opened Policies
  import opened Scans
  import opened LocalPhase
  import opened Jobs
  import Tuning
  import Results
  import Plans
  import Scheduler
  import SchedulerRuns

  // ---- What a run is given ----

  /** `skips` and `decides` are the policy's: whether a position is skipped, and whether evidence on a tier escalates. */
  datatype Setup = Setup(
    tiers: seq<string>,
    limits: Limits,
    policy: Policy,
    measures: Measures,
    world: World,
    skips: (string, nat) -> bool,
    decides: (string, string, Tuning.Evidence) -> bool
  )

  /** What the constructors of limits and policy check, and models whose numbers are in range. */
  ghost predicate Configured(s: Setup) {
    && Ladder(s.tiers) && ValidLimits(s.limits) && Sane(s.world)
    && s.policy.samples >= 1 && s.policy.workerAttempts >= 1
  }

  datatype Request = Request(
    text: string,                  // what a local model is asked
    sources: map<string, string>,
    extract: bool,                 // an exact local extraction was asked for
    plans: bool,                   // the cloud should plan rather than answer
    minParallel: int               // local subtasks without dependencies that a big goal's plan must have
  )

  function QueryOf(s: Setup, text: string): Query {
    Query(s.policy, s.world, Locals(s.tiers), (i: nat) => s.skips(text, i),
          (t: string, e: Tuning.Evidence) => s.decides(text, t, e))
  }

  lemma QueryIsProper(s: Setup, text: string)
    requires Configured(s)
    ensures Proper(QueryOf(s, text))
  {
    LocalsOfLadder(s.tiers);
  }

  lemma AllButOne(tiers: seq<string>)
    requires Ladder(tiers)
    ensures |Locals(tiers)| == |tiers| - 1
  {
    LocalsOfLadder(tiers);
  }

  /** The settings whose `skips` and `decides` are the policy's own functions. */
  function ByRules(tiers: seq<string>, limits: Limits, p: Policy, m: Measures, w: World): Setup
    requires |p.weights| == SIGNALS
  {
    Setup(tiers, limits, p, m, w,
          (text: string, i: nat) => i < |Locals(tiers)| && Tuning.Skips(p, Locals(tiers)[i], Locals(tiers), m.complexity(text)),
          (text: string, t: string, e: Tuning.Evidence) => e.samples != [] && Decide(p, m, t, text, e.samples, e.critique))
  }

  /** What holds of any request holds of one that the policy's own functions answer. */
  lemma RulesDecide(tiers: seq<string>, limits: Limits, p: Policy, m: Measures, w: World, text: string)
    requires |p.weights| == SIGNALS
    ensures ByPolicy(QueryOf(ByRules(tiers, limits, p, m, w), text), m, text)
  {
  }

  predicate Independent(task: Plans.Task) {
    task.preferredTier != CLOUD && task.dependsOn == []
  }

  function IndependentTasks(tasks: seq<Plans.Task>): seq<Plans.Task> {
    if tasks == [] then []
    else IndependentTasks(tasks[..|tasks| - 1]) + if Independent(tasks[|tasks| - 1]) then [tasks[|tasks| - 1]] else []
  }

  /** A big goal must not come back as a plan that leaves the local models idle. */
  predicate UsesLocals(s: Setup, req: Request, plan: Plans.Plan) {
    s.measures.parts(req.text) < s.policy.bulkParts || |IndependentTasks(plan.tasks)| >= req.minParallel
  }

  /** Spelled out: the goal asks for fewer things, or enough subtasks prefer a local model and depend on nothing. */
  lemma UsesLocalsIff(s: Setup, req: Request, plan: Plans.Plan)
    ensures UsesLocals(s, req, plan) <==>
      || s.measures.parts(req.text) < s.policy.bulkParts
      || |FreeLocals(plan.tasks)| >= req.minParallel
  {
    IndependentCount(plan.tasks);
  }

  /** The places of the subtasks that can start on a local model at once. */
  function FreeLocals(tasks: seq<Plans.Task>): set<int> {
    set i | 0 <= i < |tasks| && tasks[i].preferredTier != "cloud" && |tasks[i].dependsOn| == 0
  }

  lemma {:induction false} IndependentCount(tasks: seq<Plans.Task>)
    ensures |IndependentTasks(tasks)| == |FreeLocals(tasks)|
  {
    if tasks != [] {
      IndependentCount(tasks[..|tasks| - 1]);
      OneMoreTask(tasks);
    }
  }

  lemma OneMoreTask(tasks: seq<Plans.Task>)
    requires tasks != []
    ensures |FreeLocals(tasks)| == |FreeLocals(tasks[..|tasks| - 1])| + if Independent(tasks[|tasks| - 1]) then 1 else 0
  {
    var n := |tasks| - 1;
    var before := FreeLocals(tasks[..n]);
    assert n !in before && FreeLocals(tasks) == if Independent(tasks[n]) then before + {n} else before;
  }

  // ---- One call ----

  /** Why a run ends without an answer. */
  datatype Error =
    | Relay(message: string)       // a model call failed
    | OverBudget(message: string)
    | Invalid(message: string)     // a plan or an answer failed its checks
    | Abort                        // anything that is not a RelayError
    | TasksFailed                  // the workers stopped
    | Unfinished                   // the schedule ends while the workers still run

  datatype Ending = Answered(text: string) | Stopped(error: Error)

  datatype Called = Value(value: Json) | Raise(error: Error)

  /** What the caller makes of an outcome; extractions and subtasks have their judgment split off. */
  function Reading(op: Operation, outcome: Scheduler.Outcome): (r: Called)
    ensures r.Raise? ==> r.error.Relay? || r.error.Abort?
  {
    match outcome
    case Replied(value) => Value(if op.Attempt? || op.Work? then Results.WithoutJudgment(value) else value)
    case Failed(message) => Raise(Relay(message))
    case Aborted => Raise(Abort)
  }

  /** The calls made so far and what they cost. */
  datatype Books = Books(records: seq<Record>, spent: Spent)

  const EMPTY := Books([], Spent(0, 0))

  ghost predicate Sound(limits: Limits, b: Books) {
    Balanced(limits, b.records, b.spent)
  }

  function Refused(limits: Limits, b: Books, tier: string, op: Operation): Option<string> {
    if tier == CLOUD then Refusal(limits, b.spent, op) else None
  }

  /** The books after a call, or after its refusal. */
  function Booked(limits: Limits, b: Books, tier: string, op: Operation, attempt: nat): Books {
    if Refused(limits, b, tier, op).Some? then b
    else Books(b.records + [Scheduler.Record(tier, op, "", attempt)], if tier == CLOUD then Charge(b.spent, op) else b.spent)
  }

  function CallOf(s: Setup, b: Books, tier: string, op: Operation): Called {
    var refused := Refused(s.limits, b, tier, op);
    if refused.Some? then Raise(OverBudget(refused.value)) else Reading(op, Outcome(s.world, |b.records|))
  }

  /** Every call keeps the books sound, and leaves the last call its reserve. */
  lemma BookedIsSound(limits: Limits, b: Books, tier: string, op: Operation, attempt: nat)
    requires Sound(limits, b)
    ensures Sound(limits, Booked(limits, b, tier, op, attempt))
    ensures !Final(op) && Reserved(limits, b.spent) ==> Reserved(limits, Booked(limits, b, tier, op, attempt).spent)
  {
    SchedulerRuns.CloudRecordsAppend(b.records, Scheduler.Record(tier, op, "", attempt));
    if tier == CLOUD && Refusal(limits, b.spent, op).None? {
      ChargeStaysWithin(limits, b.spent, op);
    }
  }

  // ---- The local part ----

  function OnlyInput(sources: map<string, string>, key: string): Results.Inputs
    requires key in sources
  {
    map[Results.SOURCES + "." + key := JStr(sources[key])]
  }

  /** The answer to an opted-in copy of a single source: checked like an extraction, and it must quote all of it. */
  function ExactExtraction(sources: map<string, string>, key: string, candidate: Json): Option<string>
    requires sources.Keys == {key}
  {
    if !Results.Accepts(Results.REPORT_EXTRACTION, candidate, OnlyInput(sources, key)) then None
    else if candidate.fields["quote"] != JStr(sources[key]) then None
    else Some("**" + candidate.fields["report_id"].s + "**: " + sources[key])
  }

  /** Accepted exactly if the candidate names the source and quotes the whole of it, and the source is not blank. */
  lemma ExtractionIsWholeSource(sources: map<string, string>, key: string, candidate: Json)
    requires sources.Keys == {key}
    ensures ExactExtraction(sources, key, candidate).Some? <==>
      !Blank(sources[key]) && candidate == JObj(map["report_id" := JStr(key), "quote" := JStr(sources[key])])
    ensures ExactExtraction(sources, key, candidate).Some? ==>
      ExactExtraction(sources, key, candidate).value == "**" + key + "**: " + sources[key]
  {
    var text := sources[key];
    var inputs := OnlyInput(sources, key);
    SingleSource(key, text);
    assert Occurs(text, text) by {
      assert text[0..|text|] == text;
    }
    if Results.Accepts(Results.REPORT_EXTRACTION, candidate, inputs) {
      SameName(candidate.fields["report_id"].s, key);
      if candidate.fields["quote"] == JStr(text) {
        assert candidate.fields == map["report_id" := JStr(key), "quote" := JStr(text)];
      }
    }
  }

  lemma SingleSource(key: string, text: string)
    ensures Results.SourceRefs(map[Results.SOURCES + "." + key := JStr(text)]) == {Results.SOURCES + "." + key}
  {
  }

  lemma SameName(a: string, b: string)
    ensures Results.SOURCES + "." + a == Results.SOURCES + "." + b ==> a == b
  {
    var n := |Results.SOURCES + "."|;
    assert (Results.SOURCES + "." + a)[n..] == a && (Results.SOURCES + "." + b)[n..] == b;
  }

  /** The copy of the only source, if the candidate is one. */
  ghost function Extracted(sources: map<string, string>, candidate: Json): Option<string> {
    if key :| sources.Keys == {key} then ExactExtraction(sources, key, candidate) else None
  }

  /** How the local part ends; without an ending the cloud has to take over. */
  datatype LocalEnd = LocalEnd(
    calls: seq<Record>,
    results: map<string, Json>,
    verdicts: seq<Verdict>,
    skipped: seq<string>,
    route: Option<string>,
    ending: Option<Ending>
  )

  /** Asking the local models in turn, after the calls in `before`. */
  function Asking(s: Setup, text: string, before: seq<Record>): LocalEnd {
    var q := QueryOf(s, text);
    var a := Ask(q, |before|);
    var verdicts := VerdictsOf(a.marks);
    LocalEnd(before + a.calls, map[], verdicts, TiersAt(q.local, a.skips), TierAt(q.local, a.trusted), EndingOf(a, verdicts))
  }

  function TierAt(local: seq<string>, place: Option<nat>): Option<string> {
    if place.Some? && place.value < |local| then Some(local[place.value]) else None
  }

  function EndingOf(a: Asked, verdicts: seq<Verdict>): Option<Ending> {
    if a.aborted then Some(Stopped(Abort))
    else if a.trusted.Some? then Some(Answered(AnswerOf(verdicts)))
    else None
  }

  /** The first sample of the last tier that was judged. */
  function AnswerOf(verdicts: seq<Verdict>): string {
    if verdicts == [] || verdicts[|verdicts| - 1].evidence.samples == [] then ""
    else verdicts[|verdicts| - 1].evidence.samples[0].answer
  }

  const EXTRACT_CALLS := [Scheduler.Record("local", Attempt, "", 0)]

  /** An extraction is tried first, if one was asked for. */
  ghost function Locally(s: Setup, req: Request): LocalEnd {
    if !req.extract then Asking(s, req.text, [])
    else
      match Reading(Attempt, Outcome(s.world, 0))
      case Raise(error) => LocalEnd(EXTRACT_CALLS, map[], [], [], None, Some(Stopped(error)))
      case Value(candidate) =>
        var answer := Extracted(req.sources, candidate);
        if answer.None? then Asking(s, req.text, EXTRACT_CALLS)
        else
          LocalEnd(EXTRACT_CALLS, map["local_answer" := candidate], [], [], Some("local"), Some(Answered(answer.value)))
  }

  lemma {:induction false} NoneIsFree(calls: seq<Record>)
    requires NoneTo(CLOUD, calls)
    ensures Scheduler.CloudRecords(calls) == 0
  {
    if calls != [] {
      NoneIsFree(calls[..|calls| - 1]);
    }
  }

  /** The local part calls no cloud model. */
  lemma LocallyIsFree(s: Setup, req: Request)
    ensures Scheduler.CloudRecords(Locally(s, req).calls) == 0 && Sound(s.limits, Books(Locally(s, req).calls, Spent(0, 0)))
  {
    AskSpares(QueryOf(s, req.text), 0, CLOUD);
    AskSpares(QueryOf(s, req.text), 1, CLOUD);
    NoneIsFree(Locally(s, req).calls);
  }

  // ---- Planning ----

  /** The reply spells out this plan, and it is accepted. */
  ghost predicate Offers(s: Setup, req: Request, value: Json, plan: Plans.Plan) {
    && Plans.Spells(value, plan, s.limits.maxTasks, s.tiers) && UsesLocals(s, req, plan)
    && Plans.Accepted(plan, req.sources, s.limits.maxTasks, s.tiers)
  }

  /** What a run takes over from its workers. */
  datatype Finish = Finish(books: Books, results: map<string, Json>, main: Scheduler.Main)

  /** What a run gets from its two larger parts: the plan in a reply, if any, and what the workers leave of a job. */
  datatype Parts = Parts(
    draft: (Request, Json) -> Option<Plans.Plan>,
    work: Job -> Finish
  )

  datatype Planned = Drawn(books: Books, plan: Plans.Plan) | Undrawn(books: Books, error: Error)

  const NO_GRAPH := "Planner returned an invalid graph"

  /** The planner may try again when its reply is no usable plan; a failed or refused call ends it. */
  function Planning(s: Setup, req: Request, parts: Parts, b: Books, attempt: nat): Planned
    requires attempt <= s.policy.planAttempts
    decreases s.policy.planAttempts - attempt
  {
    if attempt == s.policy.planAttempts then Undrawn(b, Invalid(NO_GRAPH))
    else
      var after := Booked(s.limits, b, CLOUD, Operation.Plan, attempt + 1);
      match CallOf(s, b, CLOUD, Operation.Plan)
      case Raise(error) => Undrawn(after, error)
      case Value(value) =>
        var plan := parts.draft(req, value);
        if plan.Some? then Drawn(after, plan.value) else Planning(s, req, parts, after, attempt + 1)
  }

  /** The last call on record replied with this plan. */
  ghost predicate PlannedBy(s: Setup, req: Request, parts: Parts, b: Books, plan: Plans.Plan) {
    && b.records != [] && Outcome(s.world, |b.records| - 1).Replied?
    && parts.draft(req, Outcome(s.world, |b.records| - 1).value) == Some(plan)
  }

  /** At most `most` calls were added, and the books stay sound with the last call in reserve. */
  ghost predicate Spends(limits: Limits, before: Books, after: Books, most: nat) {
    && Sound(limits, after) && Reserved(limits, after.spent)
    && before.records <= after.records && |after.records| <= |before.records| + most
  }

  lemma PlanCall(s: Setup, b: Books, attempt: nat)
    ensures var r := CallOf(s, b, CLOUD, Operation.Plan); var after := Booked(s.limits, b, CLOUD, Operation.Plan, attempt);
      && b.records <= after.records && |after.records| <= |b.records| + 1 && (r.Raise? ==> !r.error.Invalid?)
      && (r.Value? ==> |after.records| == |b.records| + 1 && Outcome(s.world, |b.records|) == Scheduler.Replied(r.value))
  {
  }

  /** Planning keeps the books sound and the last call in reserve. */
  lemma {:induction false} PlanningKeepsBooks(s: Setup, req: Request, parts: Parts, b: Books, attempt: nat)
    requires attempt <= s.policy.planAttempts && Sound(s.limits, b) && Reserved(s.limits, b.spent)
    ensures var p := Planning(s, req, parts, b, attempt); Sound(s.limits, p.books) && Reserved(s.limits, p.books.spent)
    decreases s.policy.planAttempts - attempt
  {
    if attempt < s.policy.planAttempts {
      BookedIsSound(s.limits, b, CLOUD, Operation.Plan, attempt + 1);
      if CallOf(s, b, CLOUD, Operation.Plan).Value? {
        PlanningKeepsBooks(s, req, parts, Booked(s.limits, b, CLOUD, Operation.Plan, attempt + 1), attempt + 1);
      }
    }
  }

  /** Planning only adds to the record. */
  lemma {:induction false} PlanningAdds(s: Setup, req: Request, parts: Parts, b: Books, attempt: nat)
    requires attempt <= s.policy.planAttempts
    ensures b.records <= Planning(s, req, parts, b, attempt).books.records
    decreases s.policy.planAttempts - attempt
  {
    if attempt < s.policy.planAttempts {
      PlanCall(s, b, attempt + 1);
      if CallOf(s, b, CLOUD, Operation.Plan).Value? {
        PlanningAdds(s, req, parts, Booked(s.limits, b, CLOUD, Operation.Plan, attempt + 1), attempt + 1);
      }
    }
  }

  /** Planning takes at most P calls, all of them if no reply was usable, and yields only the plan of the last reply. */
  lemma {:induction false} PlanningCounts(s: Setup, req: Request, parts: Parts, b: Books, attempt: nat)
    requires attempt <= s.policy.planAttempts
    ensures var p := Planning(s, req, parts, b, attempt);
      && |p.books.records| <= |b.records| + s.policy.planAttempts - attempt
      && (p.Drawn? ==> PlannedBy(s, req, parts, p.books, p.plan))
      && (p.Undrawn? && p.error.Invalid? ==> |p.books.records| == |b.records| + s.policy.planAttempts - attempt)
    decreases s.policy.planAttempts - attempt
  {
    if attempt < s.policy.planAttempts {
      PlanCall(s, b, attempt + 1);
      if CallOf(s, b, CLOUD, Operation.Plan).Value? {
        PlanningCounts(s, req, parts, Booked(s.limits, b, CLOUD, Operation.Plan, attempt + 1), attempt + 1);
      }
    }
  }

  /** Planning takes at most P calls, keeps the reserve, and yields only the plan of the last reply. */
  lemma PlanningIsSound(s: Setup, req: Request, parts: Parts, b: Books)
    requires Sound(s.limits, b) && Reserved(s.limits, b.spent)
    ensures var p := Planning(s, req, parts, b, 0);
      && Spends(s.limits, b, p.books, s.policy.planAttempts) && (p.Drawn? ==> PlannedBy(s, req, parts, p.books, p.plan))
      && (p.Undrawn? && p.error.Invalid? ==> |p.books.records| == |b.records| + s.policy.planAttempts)
  {
    PlanningKeepsBooks(s, req, parts, b, 0);
    PlanningAdds(s, req, parts, b, 0);
    PlanningCounts(s, req, parts, b, 0);
  }

  // ---- The cloud's part ----

  const NO_ANSWER := "No answer was written"

  /** The call that writes the answer: its text must not be blank. */
  function Written(s: Setup, b: Books, op: Operation): Ending {
    match CallOf(s, b, CLOUD, op)
    case Raise(error) => Stopped(error)
    case Value(value) => if value.JStr? && !Blank(value.s) then Answered(value.s) else Stopped(Invalid(NO_ANSWER))
  }

  function JobOf(s: Setup, req: Request, b: Books, plan: Plans.Plan): Job {
    Job(plan, req.sources, s.tiers, s.limits, s.policy, b.spent, b.records, s.world.line, s.world.provider)
  }

  /** How the cloud's part ends; `reached` says that it came to the call that writes the answer. */
  datatype CloudEnd = CloudEnd(ending: Ending, books: Books, results: map<string, Json>, job: Option<Job>, reached: bool)

  function Writing(s: Setup, b: Books, op: Operation, results: map<string, Json>, job: Option<Job>): CloudEnd {
    CloudEnd(Written(s, b, op), Booked(s.limits, b, CLOUD, op, 0), results, job, true)
  }

  /** The cloud synthesizes when the workers completed. */
  function After(s: Setup, job: Job, end: Finish): CloudEnd {
    match end.main
    case Completed => Writing(s, end.books, Synthesize, end.results, Some(job))
    case Stopped => CloudEnd(Stopped(TasksFailed), end.books, end.results, Some(job), false)
    case _ => CloudEnd(Stopped(Unfinished), end.books, end.results, Some(job), false)
  }

  /** The cloud answers, or it plans and synthesizes what its workers make of the plan. */
  function Cloud(s: Setup, req: Request, parts: Parts, b: Books): CloudEnd {
    if !req.plans then Writing(s, b, Answer, map[], None)
    else
      match Planning(s, req, parts, b, 0)
      case Undrawn(after, error) => CloudEnd(Stopped(error), after, map[], None, false)
      case Drawn(after, plan) =>
        var job := JobOf(s, req, after, plan);
        After(s, job, parts.work(job))
  }

  // ---- The whole run ----

  datatype Whole = Whole(local: LocalEnd, cloud: Option<CloudEnd>)

  /** The local models first; the cloud takes over when they leave no ending. */
  ghost function RunOf(s: Setup, req: Request, parts: Parts): Whole {
    var local := Locally(s, req);
    Whole(local, if local.ending.Some? then None else Some(Cloud(s, req, parts, Books(local.calls, Spent(0, 0)))))
  }

  function EndingIn(r: Whole): Ending {
    if r.cloud.Some? then r.cloud.value.ending else if r.local.ending.Some? then r.local.ending.value else Stopped(Abort)
  }

  function BooksIn(r: Whole): Books {
    if r.cloud.Some? then r.cloud.value.books else Books(r.local.calls, Spent(0, 0))
  }

  function ResultsIn(r: Whole): map<string, Json> {
    if r.cloud.Some? then r.cloud.value.results else r.local.results
  }

  function RouteIn(r: Whole): Option<string> {
    if r.cloud.Some? then Some(CLOUD) else r.local.route
  }

  function JobIn(r: Whole): Option<Job> {
    if r.cloud.Some? then r.cloud.value.job else None
  }

  // ---- What the local part means ----

  /** The answer to an exact extraction: the only source, whole. */
  ghost predicate Copied(req: Request, route: string, text: string) {
    req.extract && route == "local" &&
    exists key :: req.sources.Keys == {key} && text == "**" + key + "**: " + req.sources[key]
  }

  /** The text is the first sample of the tier that was judged last. */
  ghost predicate Quoted(verdicts: seq<Verdict>, text: string) {
    verdicts != [] && var e := verdicts[|verdicts| - 1].evidence; e.samples != [] && text == e.samples[0].answer
  }

  /** An exact copy of the only source before any tier was judged, or the first sample of the first tier that was trusted. */
  ghost predicate AnswersLocally(s: Setup, req: Request, verdicts: seq<Verdict>, skipped: seq<string>, route: string,
                                 text: string) {
    || (Copied(req, route, text) && verdicts == [] && skipped == [])
    || (FirstTrusted(QueryOf(s, req.text), verdicts, skipped, route) && Quoted(verdicts, text))
  }

  /** What the local models said is on record, an answer is trusted, and the cloud takes over only when nobody was. */
  ghost predicate LocalMeaning(s: Setup, req: Request, l: LocalEnd) {
    && AllSourced(QueryOf(s, req.text), l.calls, l.verdicts) && LocalShare(0, |l.calls|, |Locals(s.tiers)|, s.policy.samples)
    && (l.ending.None? ==> NobodyTrusted(QueryOf(s, req.text), l.verdicts, l.skipped) && l.results == map[])
    && (l.route.Some? <==> l.ending.Some? && l.ending.value.Answered?)
    && (l.route.Some? ==> AnswersLocally(s, req, l.verdicts, l.skipped, l.route.value, l.ending.value.text))
    && l.route != Some(CLOUD)
  }

  /** What asking the local models may add, beside an extraction. */
  ghost predicate LocalShare(before: nat, after: nat, L: nat, S: nat) {
    after <= before + 1 + Times(L, S + 1)
  }

  lemma AnswerIsQuoted(q: Query, records: seq<Record>, verdicts: seq<Verdict>)
    requires AllSourced(q, records, verdicts) && verdicts != []
    ensures Quoted(verdicts, AnswerOf(verdicts))
  {
    assert Sourced(q, records, verdicts[|verdicts| - 1]);
  }

  lemma AskingMeans(s: Setup, req: Request, before: seq<Record>)
    requires Configured(s) && |before| <= 1
    ensures LocalMeaning(s, req, Asking(s, req.text, before))
  {
    var q := QueryOf(s, req.text);
    var a := Ask(q, |before|);
    QueryIsProper(s, req.text);
    assert Logged(before + a.calls, |before|, a.calls);
    AskMeans(q, |before|, before + a.calls);
    TrustedInRange(q, |before|);
    if a.trusted.Some? {
      AnswerIsQuoted(q, before + a.calls, VerdictsOf(a.marks));
    }
  }

  lemma ExtractedIsCopy(sources: map<string, string>, candidate: Json)
    requires Extracted(sources, candidate).Some?
    ensures exists key :: sources.Keys == {key} && Extracted(sources, candidate) == Some("**" + key + "**: " + sources[key])
  {
    var key :| sources.Keys == {key} && Extracted(sources, candidate) == ExactExtraction(sources, key, candidate);
    ExtractionIsWholeSource(sources, key, candidate);
  }

  lemma LocallyMeans(s: Setup, req: Request)
    requires Configured(s)
    ensures LocalMeaning(s, req, Locally(s, req))
  {
    AskingMeans(s, req, []);
    AskingMeans(s, req, EXTRACT_CALLS);
    if req.extract {
      var candidate := Reading(Attempt, Outcome(s.world, 0));
      if candidate.Value? && Extracted(req.sources, candidate.value).Some? {
        ExtractedIsCopy(req.sources, candidate.value);
      }
    }
  }

  // ---- What the cloud's part means ----

  /** What the cloud's part may add, with `per` calls for each task. */
  ghost predicate CloudShare(before: nat, after: nat, P: nat, T: nat, per: nat) {
    after <= before + P + Times(T, per) + 1
  }

  /** The last of n calls replied with this text, and it is not blank. */
  predicate Wrote(w: World, n: nat, text: string) {
    n > 0 && Outcome(w, n - 1) == Scheduler.Replied(JStr(text)) && !Blank(text)
  }

  /** What the last of n calls comes to is how the run ends: a text that is not blank is the answer. */
  ghost predicate Concluded(w: World, n: nat, ending: Ending) {
    n > 0 && match Outcome(w, n - 1)
      case Replied(value) =>
        if value.JStr? && !Blank(value.s) then ending == Answered(value.s) else ending.Stopped? && ending.error.Invalid?
      case Failed(message) => ending == Stopped(Relay(message))
      case Aborted => ending == Stopped(Abort)
  }

  /**
   Without a job nothing was stored, and the last call is reached exactly if no plan was wanted; with one the results are
   its workers', synthesis is reached exactly if they completed, and the run fails if they did.
   */
  ghost predicate RanJob(s: Setup, req: Request, parts: Parts, e: CloudEnd) {
    match e.job
    case None => e.results == map[] && (e.reached <==> !req.plans)
    case Some(job) =>
      && parts.work(job).books.records <= e.books.records && e.results == parts.work(job).results && req.plans
      && (e.reached <==> parts.work(job).main.Completed?)
      && (parts.work(job).main.Stopped? ==> e.ending == Stopped(TasksFailed))
      && (e.books.records == parts.work(job).books.records
          || (e.reached && e.books.records == parts.work(job).books.records + [Scheduler.Record(CLOUD, Synthesize, "", 0)]))
      && job == JobOf(s, req, Books(job.records, job.spent), job.plan)
      && PlannedBy(s, req, parts, Books(job.records, job.spent), job.plan)
  }

  /** The books are sound, few calls were added, an answer is the last reply, and the last call is never refused. */
  ghost predicate CloudMeaning(s: Setup, b: Books, e: CloudEnd, P: nat, per: nat) {
    && Sound(s.limits, e.books) && b.records <= e.books.records
    && CloudShare(|b.records|, |e.books.records|, P, s.limits.maxTasks, per)
    && (e.ending.Answered? ==> e.reached && Wrote(s.world, |e.books.records|, e.ending.text))
    && (e.reached ==> Concluded(s.world, |e.books.records|, e.ending) || (e.ending.Stopped? && e.ending.error.OverBudget?))
    && (e.reached && s.limits.cloudEnabled && s.limits.cloudCalls >= 1 ==> !(e.ending.Stopped? && e.ending.error.OverBudget?))
  }

  /** An answer is the text of the last call; a call that the budget grants is no budget error, and its outcome decides. */
  lemma WrittenMeans(s: Setup, b: Books, op: Operation)
    ensures var r := Written(s, b, op); var after := Booked(s.limits, b, CLOUD, op, 0);
      && (r.Answered? && Final(op) ==> Wrote(s.world, |after.records|, r.text))
      && (Refusal(s.limits, b.spent, op).None? ==> !(r.Stopped? && r.error.OverBudget?))
      && (Final(op) ==> if Refusal(s.limits, b.spent, op).None? then Concluded(s.world, |after.records|, r)
                        else r == Stopped(OverBudget(Refusal(s.limits, b.spent, op).value)) && after == b)
  {
  }

  lemma WritingMeans(s: Setup, b: Books, op: Operation, results: map<string, Json>, job: Option<Job>, P: nat, per: nat)
    requires Sound(s.limits, b) && Final(op)
    requires s.limits.cloudEnabled && s.limits.cloudCalls >= 1 ==> Refusal(s.limits, b.spent, op).None?
    ensures CloudMeaning(s, b, Writing(s, b, op, results, job), P, per)
  {
    BookedIsSound(s.limits, b, CLOUD, op, 0);
    WrittenMeans(s, b, op);
  }

  lemma MeaningLater(s: Setup, a: Books, b: Books, e: CloudEnd, P: nat, Q: nat, per: nat)
    requires a.records <= b.records && |b.records| <= |a.records| + P && CloudMeaning(s, b, e, Q, per)
    ensures CloudMeaning(s, a, e, P + Q, per)
  {
  }

  /** The workers' calls are few and charged, nothing on record is lost, and the last call stays affordable. */
  ghost predicate Left(job: Job, end: Finish, per: nat) {
    && Sound(job.limits, end.books) && job.records <= end.books.records
    && FewCalls(job.records, end.books.records, job.limits.maxTasks, per)
    && (job.limits.cloudEnabled && job.limits.cloudCalls >= 1 ==> Refusal(job.limits, end.books.spent, Synthesize).None?)
  }

  ghost predicate LeavesAt(s: Setup, req: Request, parts: Parts, per: nat, b: Books, plan: Plans.Plan) {
    Sound(s.limits, b) && Reserved(s.limits, b.spent) && PlannedBy(s, req, parts, b, plan) ==>
      Left(JobOf(s, req, b, plan), parts.work(JobOf(s, req, b, plan)), per)
  }

  /** The workers leave good order, whatever plan they are started on. */
  ghost predicate Leaves(s: Setup, req: Request, parts: Parts, per: nat) {
    forall b, plan :: LeavesAt(s, req, parts, per, b, plan)
  }

  lemma AfterMeans(s: Setup, job: Job, end: Finish, per: nat)
    requires Left(job, end, per) && job.limits == s.limits
    ensures CloudMeaning(s, Books(job.records, job.spent), After(s, job, end), 0, per)
    ensures end.books.records <= After(s, job, end).books.records
  {
    if end.main.Completed? {
      WritingMeans(s, end.books, Synthesize, end.results, Some(job), 0, 0);
      TimesIsProduct(s.limits.maxTasks, 0);
    }
  }

  lemma DrawnMeans(s: Setup, req: Request, parts: Parts, b: Books, plan: Plans.Plan, per: nat)
    requires Sound(s.limits, b) && Reserved(s.limits, b.spent) && PlannedBy(s, req, parts, b, plan)
    requires LeavesAt(s, req, parts, per, b, plan)
    ensures var job := JobOf(s, req, b, plan); var e := After(s, job, parts.work(job));
      CloudMeaning(s, b, e, 0, per) && parts.work(job).books.records <= e.books.records
  {
    var job := JobOf(s, req, b, plan);
    AfterMeans(s, job, parts.work(job), per);
  }

  lemma DrawnRan(s: Setup, req: Request, parts: Parts, b: Books, plan: Plans.Plan)
    requires PlannedBy(s, req, parts, b, plan) && req.plans
    requires var job := JobOf(s, req, b, plan); parts.work(job).books.records <= After(s, job, parts.work(job)).books.records
    ensures RanJob(s, req, parts, After(s, JobOf(s, req, b, plan), parts.work(JobOf(s, req, b, plan))))
  {
  }

  lemma UndrawnMeans(s: Setup, b: Books, p: Planned, per: nat)
    requires p.Undrawn? && Spends(s.limits, b, p.books, s.policy.planAttempts)
    ensures CloudMeaning(s, b, CloudEnd(Stopped(p.error), p.books, map[], None, false), s.policy.planAttempts, per)
  {
  }

  lemma CloudMeans(s: Setup, req: Request, parts: Parts, b: Books, per: nat)
    requires Sound(s.limits, b) && Reserved(s.limits, b.spent) && Leaves(s, req, parts, per)
    ensures CloudMeaning(s, b, Cloud(s, req, parts, b), s.policy.planAttempts, per)
    ensures RanJob(s, req, parts, Cloud(s, req, parts, b))
  {
    if req.plans {
      var p := Planning(s, req, parts, b, 0);
      PlanningIsSound(s, req, parts, b);
      if p.Drawn? {
        var job := JobOf(s, req, p.books, p.plan);
        assert LeavesAt(s, req, parts, per, p.books, p.plan);
        DrawnMeans(s, req, parts, p.books, p.plan, per);
        DrawnRan(s, req, parts, p.books, p.plan);
        MeaningLater(s, b, p.books, After(s, job, parts.work(job)), s.policy.planAttempts, 0, per);
      } else {
        UndrawnMeans(s, b, p, per);
      }
    } else {
      WritingMeans(s, b, Answer, map[], None, s.policy.planAttempts, per);
    }
  }

  // ---- What the whole run means ----

  /** L local tiers, S samples, P plan attempts, T tasks, W worker attempts. */
  function CallBound(L: nat, S: nat, P: nat, T: nat, W: nat): nat {
    2 + Times(L, S + 1) + P + Times(T, W + L)
  }

  lemma CallBoundFormula(L: nat, S: nat, P: nat, T: nat, W: nat)
    ensures CallBound(L, S, P, T, W) == 2 + L * (S + 1) + P + T * (W + L)
  {
    TimesIsProduct(L, S + 1);
    TimesIsProduct(T, W + L);
  }

  /** The run makes no more calls than the bound. */
  ghost predicate WithinBound(s: Setup, calls: nat) {
    calls <= CallBound(|Locals(s.tiers)|, s.policy.samples, s.policy.planAttempts, s.limits.maxTasks, s.policy.workerAttempts)
  }

  lemma SharesFit(s: Setup, asked: nat, calls: nat, per: nat)
    requires LocalShare(0, asked, |Locals(s.tiers)|, s.policy.samples) && per == s.policy.workerAttempts + |Locals(s.tiers)|
    requires calls == asked || CloudShare(asked, calls, s.policy.planAttempts, s.limits.maxTasks, per)
    ensures WithinBound(s, calls)
  {
  }

  /** An answer of the local models is trusted and cost nothing. */
  ghost predicate LocalRoute(s: Setup, req: Request, l: LocalEnd) {
    && l.route.Some? && l.ending.Some? && l.ending.value.Answered? && Scheduler.CloudRecords(l.calls) == 0
    && AnswersLocally(s, req, l.verdicts, l.skipped, l.route.value, l.ending.value.text)
  }

  /** No local model was trusted, and what the run holds is what the cloud and its workers made. */
  ghost predicate CloudRoute(s: Setup, req: Request, parts: Parts, l: LocalEnd, e: CloudEnd) {
    && NobodyTrusted(QueryOf(s, req.text), l.verdicts, l.skipped) && RanJob(s, req, parts, e)
    && CloudMeaning(s, Books(l.calls, Spent(0, 0)), e, s.policy.planAttempts, s.policy.workerAttempts + |Locals(s.tiers)|)
  }

  /** What every run promises, whatever the models do and whatever the workers leave. */
  ghost predicate Meaning(s: Setup, req: Request, parts: Parts, r: Whole) {
    && Sound(s.limits, BooksIn(r)) && WithinBound(s, |BooksIn(r).records|)
    && AllSourced(QueryOf(s, req.text), BooksIn(r).records, r.local.verdicts)
    && (if r.cloud.Some? then CloudRoute(s, req, parts, r.local, r.cloud.value)
        else RouteIn(r) != Some(CLOUD) && (RouteIn(r).Some? || EndingIn(r).Answered? ==> LocalRoute(s, req, r.local)))
  }

  lemma StayMeans(s: Setup, req: Request, parts: Parts, l: LocalEnd)
    requires LocalMeaning(s, req, l) && l.ending.Some?
    requires Scheduler.CloudRecords(l.calls) == 0 && Sound(s.limits, Books(l.calls, Spent(0, 0)))
    ensures Meaning(s, req, parts, Whole(l, None))
  {
    SharesFit(s, |l.calls|, |l.calls|, s.policy.workerAttempts + |Locals(s.tiers)|);
  }

  lemma TakeoverMeans(s: Setup, req: Request, parts: Parts, l: LocalEnd)
    requires LocalMeaning(s, req, l) && l.ending.None? && Sound(s.limits, Books(l.calls, Spent(0, 0)))
    requires Leaves(s, req, parts, s.policy.workerAttempts + |Locals(s.tiers)|)
    ensures Meaning(s, req, parts, Whole(l, Some(Cloud(s, req, parts, Books(l.calls, Spent(0, 0))))))
  {
    var b := Books(l.calls, Spent(0, 0));
    var e := Cloud(s, req, parts, b);
    CloudMeans(s, req, parts, b, s.policy.workerAttempts + |Locals(s.tiers)|);
    SharesFit(s, |l.calls|, |e.books.records|, s.policy.workerAttempts + |Locals(s.tiers)|);
    SourcedStays(QueryOf(s, req.text), l.calls, e.books.records, l.verdicts);
  }

  lemma RunMeans(s: Setup, req: Request, parts: Parts)
    requires Configured(s) && Leaves(s, req, parts, s.policy.workerAttempts + |Locals(s.tiers)|)
    ensures Meaning(s, req, parts, RunOf(s, req, parts))
  {
    var local := Locally(s, req);
    LocallyMeans(s, req);
    LocallyIsFree(s, req);
    if local.ending.Some? {
      StayMeans(s, req, parts, local);
    } else {
      TakeoverMeans(s, req, parts, local);
    }
  }
}
