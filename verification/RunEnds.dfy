/** How a run ends, told from what its calls come to: nothing is given up without a cause. */
module RunEnds {
  import opened Json
  import opened Budgets
  import opened Tiers
  import opened Policies
  import opened Scans
  import opened LocalPhase
  import opened Jobs
  import opened Runs
  import opened RunTheorems
  import Plans
  import Results
  import Scheduler

  // ---- The local models break a run off only if a call aborts ----

  /** One of these calls, the first being the n-th, came to something other than a reply or a RelayError. */
  ghost predicate SomeAborted(w: World, n: nat, many: nat) {
    exists i :: n <= i < n + many && Outcome(w, i).Aborted?
  }

  lemma {:induction false} SamplingBreaksIff(w: World, S: nat, n: nat, k: nat)
    requires k <= S
    ensures var s := Sampling(w, S, n, k); var many := |s.samples| + if s.aborted then 1 else 0;
      s.aborted <==> SomeAborted(w, n, many)
    decreases S - k
  {
    if k < S && !Outcome(w, n).Aborted? && !SampleFrom(w, n).needsEscalation {
      SamplingBreaksIff(w, S, n + 1, k + 1);
    }
  }

  lemma TurnBreaksIff(q: Query, tier: string, n: nat)
    requires tier in q.local
    ensures var t := TurnOf(q, tier, n); t.aborted <==> SomeAborted(q.world, n, |t.calls|)
  {
    SamplingBreaksIff(q.world, q.policy.samples, n, 0);
    var s := Sampling(q.world, q.policy.samples, n, 0);
    assert |SolveCalls(tier, |s.samples|)| == |s.samples|;
  }

  ghost predicate BreaksIff(q: Query, move: Moves) {
    forall i: nat, n: nat :: move(i, n).Broke? <==> SomeAborted(q.world, n, |CallsOf(move(i, n))|)
  }

  lemma MovesBreakIff(q: Query)
    ensures BreaksIff(q, MovesOf(q))
  {
    forall i: nat, n: nat ensures MovesOf(q)(i, n).Broke? <==> SomeAborted(q.world, n, |CallsOf(MovesOf(q)(i, n))|) {
      assert MovesOf(q)(i, n) == MoveAt(q, i, n);
      if !SkipsAt(q, i) {
        TurnBreaksIff(q, q.local[i], n);
      }
    }
  }

  lemma AbortedLater(w: World, n: nat, a: nat, b: nat)
    ensures SomeAborted(w, n, a + b) <==> SomeAborted(w, n, a) || SomeAborted(w, n + a, b)
  {
  }

  lemma {:induction false} ScanBreaksIff(q: Query, move: Moves, len: nat, i: nat, n: nat)
    requires i <= len && BreaksIff(q, move)
    ensures var a := Scan(move, len, i, n); a.aborted <==> SomeAborted(q.world, n, |a.calls|)
    decreases len - i
  {
    if i < len {
      match move(i, n)
      case Skip => ScanBreaksIff(q, move, len, i + 1, n);
      case Broke(_) =>
      case Judged(calls, v) =>
        assert !SomeAborted(q.world, n, |calls|);
        if v.escalate {
          ScanBreaksIff(q, move, len, i + 1, n + |calls|);
          AbortedLater(q.world, n, |calls|, |Scan(move, len, i + 1, n + |calls|).calls|);
        }
    }
  }

  /** Asking the local models breaks off exactly if one of their calls aborts; a RelayError never breaks it off. */
  lemma AskingBreaksIff(q: Query, n: nat)
    ensures Ask(q, n).aborted <==> SomeAborted(q.world, n, |Ask(q, n).calls|)
  {
    MovesBreakIff(q);
    ScanBreaksIff(q, MovesOf(q), |q.local|, 0, n);
  }

  // ---- An exact extraction ends the run ----

  /** The reply, apart from its self-assessment, names the only source and quotes the whole of it. */
  ghost predicate CopiesSource(value: Json, key: string, text: string) {
    && value.JObj? && value.fields.Keys - {"confidence", "reason", "concern"} == {"report_id", "quote"}
    && value.fields["report_id"] == JStr(key) && value.fields["quote"] == JStr(text) && !Blank(text)
  }

  lemma CopyIsExtracted(sources: map<string, string>, key: string, value: Json)
    requires sources.Keys == {key}
    ensures var candidate := Results.WithoutJudgment(value);
      Extracted(sources, candidate) == if CopiesSource(value, key, sources[key]) then Some("**" + key + "**: " + sources[key]) else None
  {
    var candidate := Results.WithoutJudgment(value);
    assert Extracted(sources, candidate) == ExactExtraction(sources, key, candidate) by {
      assert forall k :: sources.Keys == {k} ==> k in sources.Keys;
    }
    ExtractionIsWholeSource(sources, key, candidate);
    if value.JObj? {
      assert candidate.fields.Keys == value.fields.Keys - {"confidence", "reason", "concern"};
      if CopiesSource(value, key, sources[key]) {
        assert "report_id" in candidate.fields.Keys && "quote" in candidate.fields.Keys;
        assert candidate.fields == map["report_id" := JStr(key), "quote" := JStr(sources[key])];
      }
      if candidate == JObj(map["report_id" := JStr(key), "quote" := JStr(sources[key])]) {
        assert "report_id" in candidate.fields && "quote" in candidate.fields;
        assert candidate.fields.Keys == {"report_id", "quote"};
      }
    }
  }

  /**
   A run that was asked for an exact extraction makes that one call first. A copy of the only source ends the run with it,
   on the local route and kept among the results; a failed call ends the run; after anything else the local models are asked.
   */
  lemma ExtractionDecides(s: Setup, req: Request, key: string)
    requires req.extract && req.sources.Keys == {key}
    ensures var l := Locally(s, req);
      match Outcome(s.world, 0)
      case Failed(message) => l.ending == Some(Stopped(Relay(message))) && l.calls == [Scheduler.Record("local", Attempt, "", 0)]
      case Aborted => l.ending == Some(Stopped(Abort)) && l.calls == [Scheduler.Record("local", Attempt, "", 0)]
      case Replied(value) =>
        if CopiesSource(value, key, req.sources[key]) then
          && l.ending == Some(Answered("**" + key + "**: " + req.sources[key])) && l.route == Some("local")
          && l.calls == [Scheduler.Record("local", Attempt, "", 0)] && l.verdicts == []
          && l.results == map["local_answer" := JObj(map["report_id" := JStr(key), "quote" := JStr(req.sources[key])])]
        else l == Asking(s, req.text, [Scheduler.Record("local", Attempt, "", 0)])
  {
    if Outcome(s.world, 0).Replied? {
      var value := Outcome(s.world, 0).value;
      CopyIsExtracted(req.sources, key, value);
      if CopiesSource(value, key, req.sources[key]) {
        assert Results.WithoutJudgment(value).fields == map["report_id" := JStr(key), "quote" := JStr(req.sources[key])] by {
          assert Results.WithoutJudgment(value).fields.Keys == {"report_id", "quote"};
        }
      }
    }
  }

  // ---- The first usable plan is run ----

  /** These replies, the first being that of the n-th call, offer no usable plan. */
  ghost predicate Useless(s: Setup, req: Request, n: nat, many: nat) {
    forall i :: n <= i < n + many ==> Outcome(s.world, i).Replied? && forall plan :: !Offers(s, req, Outcome(s.world, i).value, plan)
  }

  /** The budget grants one more planning call after k of them. */
  predicate Affords(limits: Limits, spent: Spent, k: nat) {
    limits.cloudEnabled && spent.calls + k + 1 < limits.cloudCalls
  }

  function PlanCalls(from: nat, many: nat): seq<Record> {
    seq(many, i requires 0 <= i < many => Scheduler.Record(CLOUD, Operation.Plan, "", from + i + 1))
  }

  /** The books after some planning calls. */
  function Later(b: Books, from: nat, many: nat): Books {
    Books(b.records + PlanCalls(from, many), Spent(b.spent.calls + many, b.spent.workerCalls))
  }

  lemma LaterNext(limits: Limits, b: Books, from: nat, many: nat)
    requires Affords(limits, b.spent, 0) && many > 0
    ensures Booked(limits, b, CLOUD, Operation.Plan, from + 1) == Later(b, from, 1)
    ensures Later(Later(b, from, 1), from + 1, many - 1) == Later(b, from, many)
  {
    assert PlanCalls(from, 1) == [Scheduler.Record(CLOUD, Operation.Plan, "", from + 1)];
    assert PlanCalls(from, many) == PlanCalls(from, 1) + PlanCalls(from + 1, many - 1);
    assert b.records + (PlanCalls(from, 1) + PlanCalls(from + 1, many - 1)) == b.records + PlanCalls(from, 1) + PlanCalls(from + 1, many - 1);
  }

  lemma NoDraft(s: Setup, req: Request, parts: Parts, n: nat)
    requires Useless(s, req, n, 1) && DraftsAt(s, parts, req, Outcome(s.world, n).value)
    ensures parts.draft(req, Outcome(s.world, n).value).None?
  {
    assert forall plan :: !Offers(s, req, Outcome(s.world, n).value, plan);
  }

  /** Planning goes on past useless replies that it can afford. */
  lemma {:induction false} PlanningGoesOn(s: Setup, req: Request, parts: Parts, b: Books, attempt: nat, k: nat)
    requires attempt + k <= s.policy.planAttempts && forall value :: DraftsAt(s, parts, req, value)
    requires Useless(s, req, |b.records|, k) && (k > 0 ==> Affords(s.limits, b.spent, k - 1))
    ensures Planning(s, req, parts, b, attempt) == Planning(s, req, parts, Later(b, attempt, k), attempt + k)
    decreases k
  {
    if k == 0 {
      assert PlanCalls(attempt, 0) == [] && b.records + [] == b.records;
    } else {
      LaterNext(s.limits, b, attempt, k);
      assert DraftsAt(s, parts, req, Outcome(s.world, |b.records|).value);
      NoDraft(s, req, parts, |b.records|);
      PlanningGoesOn(s, req, parts, Later(b, attempt, 1), attempt + 1, k - 1);
    }
  }

  /** After k useless replies: what the next planning call comes to decides, unless it is refused or there is none. */
  ghost predicate PlanningDecided(s: Setup, req: Request, b: Books, k: nat, p: Planned) {
    var n := |b.records| + k;
    if k == s.policy.planAttempts then p == Undrawn(Later(b, 0, k), Invalid(NO_GRAPH))
    else if !Affords(s.limits, b.spent, k) then p.Undrawn? && p.error.OverBudget? && p.books == Later(b, 0, k)
    else match Outcome(s.world, n)
      case Failed(message) => p == Undrawn(Later(b, 0, k + 1), Relay(message))
      case Aborted => p == Undrawn(Later(b, 0, k + 1), Abort)
      case Replied(value) => forall plan :: Offers(s, req, value, plan) ==> p == Drawn(Later(b, 0, k + 1), plan)
  }

  lemma OneMore(b: Books, k: nat)
    ensures |Later(b, 0, k).records| == |b.records| + k && Later(Later(b, 0, k), k, 1) == Later(b, 0, k + 1)
  {
    assert PlanCalls(0, k + 1) == PlanCalls(0, k) + PlanCalls(k, 1);
    assert b.records + PlanCalls(0, k) + PlanCalls(k, 1) == b.records + (PlanCalls(0, k) + PlanCalls(k, 1));
  }

  lemma OfferIsDraft(s: Setup, req: Request, parts: Parts, value: Json, plan: Plans.Plan)
    requires DraftsAt(s, parts, req, value) && Offers(s, req, value, plan)
    ensures parts.draft(req, value) == Some(plan)
  {
    OffersOne(s, req, value, plan, parts.draft(req, value).value);
  }

  /** What the n-th call of the run comes to as a planning call. */
  ghost predicate CallDecides(s: Setup, req: Request, parts: Parts, n: nat, after: Books, p: Planned) {
    match Outcome(s.world, n)
    case Failed(message) => p == Undrawn(after, Relay(message))
    case Aborted => p == Undrawn(after, Abort)
    case Replied(value) => parts.draft(req, value).Some? ==> p == Drawn(after, parts.draft(req, value).value)
  }

  lemma PlanningAt(s: Setup, req: Request, parts: Parts, now: Books, k: nat)
    requires k < s.policy.planAttempts
    ensures var p := Planning(s, req, parts, now, k);
      if Affords(s.limits, now.spent, 0) then
        CallDecides(s, req, parts, |now.records|, Booked(s.limits, now, CLOUD, Operation.Plan, k + 1), p)
      else p.Undrawn? && p.error.OverBudget? && p.books == now
  {
  }

  lemma CallSettles(s: Setup, req: Request, parts: Parts, b: Books, k: nat, p: Planned)
    requires k < s.policy.planAttempts && Affords(s.limits, b.spent, k) && forall value :: DraftsAt(s, parts, req, value)
    requires CallDecides(s, req, parts, |b.records| + k, Later(b, 0, k + 1), p)
    ensures PlanningDecided(s, req, b, k, p)
  {
    if Outcome(s.world, |b.records| + k).Replied? {
      var value := Outcome(s.world, |b.records| + k).value;
      forall plan | Offers(s, req, value, plan) ensures p == Drawn(Later(b, 0, k + 1), plan) {
        assert DraftsAt(s, parts, req, value);
        OfferIsDraft(s, req, parts, value, plan);
      }
    }
  }

  lemma PlanningStops(s: Setup, req: Request, parts: Parts, b: Books, k: nat, now: Books)
    requires k <= s.policy.planAttempts && forall value :: DraftsAt(s, parts, req, value)
    requires now == Later(b, 0, k)
    ensures PlanningDecided(s, req, b, k, Planning(s, req, parts, now, k))
  {
    OneMore(b, k);
    if k < s.policy.planAttempts {
      PlanningAt(s, req, parts, now, k);
      if Affords(s.limits, b.spent, k) {
        LaterNext(s.limits, now, k, 1);
        CallSettles(s, req, parts, b, k, Planning(s, req, parts, now, k));
      }
    }
  }

  /** How planning ends, whatever the replies: k useless ones, and then what decides. */
  lemma PlanningEnds(s: Setup, req: Request, parts: Parts, b: Books, k: nat)
    requires k <= s.policy.planAttempts && forall value :: DraftsAt(s, parts, req, value)
    requires Useless(s, req, |b.records|, k) && (k > 0 ==> Affords(s.limits, b.spent, k - 1))
    ensures PlanningDecided(s, req, b, k, Planning(s, req, parts, b, 0))
  {
    PlanningGoesOn(s, req, parts, b, 0, k);
    PlanningStops(s, req, parts, b, k, Later(b, 0, k));
  }

  lemma PlanIsDrawn(s: Setup, req: Request, parts: Parts, b: Books, k: nat, plan: Plans.Plan)
    requires k < s.policy.planAttempts && Affords(s.limits, b.spent, k) && forall value :: DraftsAt(s, parts, req, value)
    requires Useless(s, req, |b.records|, k) && Outcome(s.world, |b.records| + k).Replied?
    requires Offers(s, req, Outcome(s.world, |b.records| + k).value, plan)
    ensures Planning(s, req, parts, b, 0) == Drawn(Later(b, 0, k + 1), plan)
  {
    PlanningEnds(s, req, parts, b, k);
  }

  lemma DrawnIsRun(s: Setup, req: Request, parts: Parts, b: Books, after: Books, plan: Plans.Plan)
    requires req.plans && Planning(s, req, parts, b, 0) == Drawn(after, plan)
    ensures Cloud(s, req, parts, b).job == Some(JobOf(s, req, after, plan))
  {
  }

  /** What became of a job, and how the run ended with it. */
  ghost predicate JobEnds(s: Setup, parts: Parts, job: Job, e: CloudEnd) {
    && (parts.work(job).main.Completed? && s.limits.cloudEnabled && s.limits.cloudCalls >= 1 ==>
          Concluded(s.world, |e.books.records|, e.ending))
    && (parts.work(job).main.Stopped? ==> e.ending == Stopped(TasksFailed))
  }

  lemma RanJobEnds(s: Setup, req: Request, parts: Parts, b: Books, e: CloudEnd, P: nat, per: nat)
    requires RanJob(s, req, parts, e) && CloudMeaning(s, b, e, P, per) && e.job.Some?
    ensures JobEnds(s, parts, e.job.value, e)
  {
  }

  lemma DraftsOf(s: Setup, req: Request, parts: Parts, schedule: seq<Scheduler.Step>)
    requires Genuine(s, parts, schedule)
    ensures forall value :: DraftsAt(s, parts, req, value)
  {
  }

  lemma CloudTakesOver(s: Setup, req: Request, parts: Parts)
    requires Locally(s, req).ending.None?
    ensures RunOf(s, req, parts).cloud == Some(Cloud(s, req, parts, Books(Locally(s, req).calls, Spent(0, 0))))
  {
  }

  lemma CloudPart(s: Setup, req: Request, parts: Parts, r: Whole)
    requires Meaning(s, req, parts, r) && r.cloud.Some?
    ensures CloudRoute(s, req, parts, r.local, r.cloud.value)
  {
  }

  lemma RouteEnds(s: Setup, req: Request, parts: Parts, l: LocalEnd, e: CloudEnd)
    requires CloudRoute(s, req, parts, l, e) && e.job.Some?
    ensures JobEnds(s, parts, e.job.value, e)
  {
    RanJobEnds(s, req, parts, Books(l.calls, Spent(0, 0)), e, s.policy.planAttempts, s.policy.workerAttempts + |Locals(s.tiers)|);
  }

  lemma CloudRan(s: Setup, req: Request, parts: Parts, schedule: seq<Scheduler.Step>)
    requires Configured(s) && Genuine(s, parts, schedule)
    ensures var r := RunOf(s, req, parts); r.cloud.Some? && r.cloud.value.job.Some? ==>
      JobEnds(s, parts, r.cloud.value.job.value, r.cloud.value)
  {
    GenuineRunMeans(s, req, parts, schedule);
    var r := RunOf(s, req, parts);
    if r.cloud.Some? && r.cloud.value.job.Some? {
      CloudPart(s, req, parts, r);
      RouteEnds(s, req, parts, r.local, r.cloud.value);
    }
  }

  /** The run started its workers on this plan, and what became of them is how it ended. */
  ghost predicate RunsPlan(s: Setup, parts: Parts, r: Whole, plan: Plans.Plan) {
    r.cloud.Some? && JobIn(r).Some? && JobIn(r).value.plan == plan && JobEnds(s, parts, JobIn(r).value, r.cloud.value)
  }

  lemma RunsItsJob(s: Setup, parts: Parts, r: Whole, e: CloudEnd, plan: Plans.Plan)
    requires r.cloud == Some(e) && e.job.Some? && e.job.value.plan == plan
    requires r.cloud.Some? && r.cloud.value.job.Some? ==> JobEnds(s, parts, r.cloud.value.job.value, r.cloud.value)
    ensures RunsPlan(s, parts, r, plan)
  {
  }

  lemma PlanIsJob(s: Setup, req: Request, parts: Parts, b: Books, k: nat, plan: Plans.Plan)
    requires k < s.policy.planAttempts && Affords(s.limits, b.spent, k) && forall value :: DraftsAt(s, parts, req, value)
    requires Useless(s, req, |b.records|, k) && Outcome(s.world, |b.records| + k).Replied? && req.plans
    requires Offers(s, req, Outcome(s.world, |b.records| + k).value, plan)
    ensures var e := Cloud(s, req, parts, b); e.job.Some? && e.job.value.plan == plan
  {
    PlanIsDrawn(s, req, parts, b, k, plan);
    DrawnIsRun(s, req, parts, b, Later(b, 0, k + 1), plan);
  }

  /** The reply to the k-th of the calls from the n-th on offers this plan, and none before it offered any. */
  ghost predicate FirstUsable(s: Setup, req: Request, n: nat, k: nat, plan: Plans.Plan) {
    Useless(s, req, n, k) && Outcome(s.world, n + k).Replied? && Offers(s, req, Outcome(s.world, n + k).value, plan)
  }

  lemma FirstUsableIsJob(s: Setup, req: Request, parts: Parts, schedule: seq<Scheduler.Step>, b: Books, k: nat, plan: Plans.Plan)
    requires Genuine(s, parts, schedule) && req.plans && k < s.policy.planAttempts && Affords(s.limits, b.spent, k)
    requires FirstUsable(s, req, |b.records|, k, plan)
    ensures var e := Cloud(s, req, parts, b); e.job.Some? && e.job.value.plan == plan
  {
    DraftsOf(s, req, parts, schedule);
    PlanIsJob(s, req, parts, b, k, plan);
  }

  /**
   When the cloud takes over to plan, the first usable plan among the replies it can afford is the one the workers are
   started on; and if they complete, what the synthesis call comes to is how the run ends.
   */
  lemma FirstUsablePlanRuns(s: Setup, req: Request, parts: Parts, schedule: seq<Scheduler.Step>, k: nat, plan: Plans.Plan)
    requires Configured(s) && Genuine(s, parts, schedule) && req.plans && Locally(s, req).ending.None?
    requires k < s.policy.planAttempts && s.limits.cloudEnabled && k + 1 < s.limits.cloudCalls
    requires FirstUsable(s, req, |Locally(s, req).calls|, k, plan)
    ensures RunsPlan(s, parts, RunOf(s, req, parts), plan)
  {
    var b := Books(Locally(s, req).calls, Spent(0, 0));
    FirstUsableIsJob(s, req, parts, schedule, b, k, plan);
    CloudRan(s, req, parts, schedule);
    CloudTakesOver(s, req, parts);
    RunsItsJob(s, parts, RunOf(s, req, parts), Cloud(s, req, parts, b), plan);
  }

  /** When the cloud takes over to answer and its one call is granted, what that call comes to is how the run ends. */
  lemma DirectAnswerEnds(s: Setup, req: Request, parts: Parts, schedule: seq<Scheduler.Step>)
    requires Configured(s) && Genuine(s, parts, schedule) && !req.plans && Locally(s, req).ending.None?
    requires s.limits.cloudEnabled && s.limits.cloudCalls >= 1
    ensures var r := RunOf(s, req, parts); var n := |Locally(s, req).calls|;
      && BooksIn(r).records == Locally(s, req).calls + [Scheduler.Record(CLOUD, Answer, "", 0)]
      && Concluded(s.world, n + 1, EndingIn(r)) && JobIn(r).None?
  {
  }

  // ---- A trusted local answer ----

  /**
   Under the default rules a local answer that is not an extraction is the first reply of a turn on record in which every
   call replied, nobody asked for help, and the critic, if there is one, let the answer pass.
   */
  lemma LocalAnswerIsSpotless(tiers: seq<string>, limits: Limits, p: Policy, m: Measures, w: World, req: Request, parts: Parts,
                              r: Whole, criticMin: real, tokenMax: real, minTokens: nat) returns (n: nat)
    requires |p.weights| == SIGNALS && p.rules == DefaultRules(criticMin, tokenMax, minTokens) && criticMin <= 1.0 && !req.extract
    requires var s := ByRules(tiers, limits, p, m, w);
      Meaning(s, req, parts, r) && RouteIn(r).Some? && RouteIn(r).value != CLOUD
    ensures var v := r.local.verdicts;
      && v != [] && v[|v| - 1].tier == RouteIn(r).value
      && Turn(QueryOf(ByRules(tiers, limits, p, m, w), req.text), RouteIn(r).value, BooksIn(r).records, n, v[|v| - 1].evidence)
      && Spotless(QueryOf(ByRules(tiers, limits, p, m, w), req.text), n, v[|v| - 1].evidence, criticMin)
      && EndingIn(r) == Answered(v[|v| - 1].evidence.samples[0].answer)
  {
    var s := ByRules(tiers, limits, p, m, w);
    RulesDecide(tiers, limits, p, m, w, req.text);
    var v := r.local.verdicts[|r.local.verdicts| - 1];
    assert Sourced(QueryOf(s, req.text), BooksIn(r).records, v);
    n := TrustedVerdictIsSpotless(QueryOf(s, req.text), m, req.text, BooksIn(r).records, v, criticMin, tokenMax, minTokens);
  }
}
