/**
 One request from start to end: local models are asked smallest first, and if none is trusted the cloud answers
 or plans, delegates and synthesizes. Every model call passes through one place, which charges the budget and
 keeps a record. The run does what its definition in `Runs` says.
 */
module Engine {
  import opened Json
  import opened Budgets
  import opened Tiers
  import opened Policies
  import opened Scans
  import opened LocalPhase
  import opened Jobs
  import opened Runs
  import opened RunTheorems
  import Tuning
  import Plans
  import Layers
  import Scheduler

  // ---- Accounting ----

  function LocalRecords(records: seq<Record>): nat {
    if records == [] then 0
    else LocalRecords(records[..|records| - 1]) + if records[|records| - 1].tier != CLOUD then 1 else 0
  }

  /** Local and cloud calls are all the calls. */
  lemma {:induction false} CallsAddUp(records: seq<Record>)
    ensures LocalRecords(records) + Scheduler.CloudRecords(records) == |records|
  {
    if records != [] {
      CallsAddUp(records[..|records| - 1]);
    }
  }

  // ---- One model's turn ----

  /** The samples so far, then the rest. */
  function Followed(samples: seq<Assessment>, rest: Sampled): Sampled {
    Sampled(samples + rest.samples, rest.aborted)
  }

  /** Sampling has given these samples so far, one call each. */
  ghost predicate SoFar(w: World, S: nat, tier: string, before: seq<Record>, records: seq<Record>, samples: seq<Assessment>) {
    && |samples| <= S && records == before + SolveCalls(tier, |samples|)
    && Sampling(w, S, |before|, 0) == Followed(samples, Sampling(w, S, |before| + |samples|, |samples|))
  }

  /** Sampling has ended. */
  ghost predicate SamplingEnded(w: World, S: nat, tier: string, before: seq<Record>, records: seq<Record>, s: Sampled) {
    s == Sampling(w, S, |before|, 0) && records == before + SolveCalls(tier, |s.samples| + if s.aborted then 1 else 0)
  }

  lemma SamplesStart(w: World, S: nat, tier: string, before: seq<Record>)
    ensures SoFar(w, S, tier, before, before, [])
  {
    assert before + SolveCalls(tier, 0) == before;
    assert [] + Sampling(w, S, |before|, 0).samples == Sampling(w, S, |before|, 0).samples;
  }

  lemma SolveNext(before: seq<Record>, tier: string, i: nat)
    ensures before + SolveCalls(tier, i) + [Scheduler.Record(tier, Solve, "", i + 1)] == before + SolveCalls(tier, i + 1)
  {
    assert SolveCalls(tier, i + 1) == SolveCalls(tier, i) + [Scheduler.Record(tier, Solve, "", i + 1)];
  }

  /** One more call was made: sampling broke off, ended, or goes on. */
  ghost predicate SampledTo(w: World, S: nat, tier: string, before: seq<Record>, records: seq<Record>, samples: seq<Assessment>,
                            error: Option<Error>, sample: Assessment) {
    if error.Some? then SamplingEnded(w, S, tier, before, records, Sampled(samples, true))
    else if sample.needsEscalation then SamplingEnded(w, S, tier, before, records, Sampled(samples + [sample], false))
    else SoFar(w, S, tier, before, records, samples + [sample])
  }

  lemma SamplesNext(w: World, S: nat, tier: string, before: seq<Record>, records: seq<Record>, samples: seq<Assessment>)
    requires SoFar(w, S, tier, before, records, samples) && |samples| < S
    ensures SampledTo(w, S, tier, before, records + [Scheduler.Record(tier, Solve, "", |samples| + 1)], samples,
                      if Outcome(w, |records|).Aborted? then Some(Abort) else None, SampleFrom(w, |records|))
  {
    SolveNext(before, tier, |samples|);
    assert samples + [] == samples;
    var sample := SampleFrom(w, |records|);
    if !Outcome(w, |records|).Aborted? && !sample.needsEscalation {
      var rest := Sampling(w, S, |records| + 1, |samples| + 1);
      assert samples + ([sample] + rest.samples) == samples + [sample] + rest.samples;
    }
  }

  lemma SamplesEnd(w: World, S: nat, tier: string, before: seq<Record>, records: seq<Record>, samples: seq<Assessment>)
    requires SoFar(w, S, tier, before, records, samples) && |samples| == S
    ensures SamplingEnded(w, S, tier, before, records, Sampled(samples, false))
  {
    assert samples + [] == samples;
  }

  /** The calls on record and the verdict are those of this turn. */
  ghost predicate TurnTaken(s: Setup, text: string, tier: string, before: seq<Record>, records: seq<Record>,
                            error: Option<Error>, verdict: Verdict)
    requires tier in Locals(s.tiers)
  {
    var turn := TurnOf(QueryOf(s, text), tier, |before|);
    && records == before + turn.calls && error == (if turn.aborted then Some(Abort) else None)
    && (error.None? ==> verdict == Verdict(tier, turn.evidence, s.decides(text, tier, turn.evidence)))
  }

  lemma TurnBreaks(s: Setup, text: string, tier: string, before: seq<Record>, records: seq<Record>, sampled: Sampled, v: Verdict)
    requires tier in Locals(s.tiers) && SamplingEnded(s.world, s.policy.samples, tier, before, records, sampled) && sampled.aborted
    ensures TurnTaken(s, text, tier, before, records, Some(Abort), v)
  {
  }

  lemma TurnEnds(s: Setup, text: string, tier: string, before: seq<Record>, solved: seq<Record>, records: seq<Record>,
                 samples: seq<Assessment>, error: Option<Error>, v: Verdict)
    requires tier in Locals(s.tiers) && SamplingEnded(s.world, s.policy.samples, tier, before, solved, Sampled(samples, false))
    requires records == solved + CriticCalls(s.policy, Locals(s.tiers), tier, samples)
    requires error == if CriticCalls(s.policy, Locals(s.tiers), tier, samples) != [] && Outcome(s.world, |solved|).Aborted?
      then Some(Abort) else None
    requires error.None? ==>
      var e := Tuning.Evidence(samples, CritiqueFrom(s.policy, s.world, samples, |solved|));
      v == Verdict(tier, e, s.decides(text, tier, e))
    ensures TurnTaken(s, text, tier, before, records, error, v)
  {
    var calls := CriticCalls(s.policy, Locals(s.tiers), tier, samples);
    assert before + SolveCalls(tier, |samples|) + calls == before + (SolveCalls(tier, |samples|) + calls);
  }

  lemma TurnIsOnRecord(s: Setup, text: string, tier: string, before: seq<Record>, records: seq<Record>, error: Option<Error>,
                       v: Verdict)
    requires Configured(s) && tier in Locals(s.tiers) && TurnTaken(s, text, tier, before, records, error, v)
    ensures error.None? ==> Turn(QueryOf(s, text), tier, records, |before|, v.evidence)
  {
    if error.None? {
      QueryIsProper(s, text);
      TurnIsSound(QueryOf(s, text), tier, records, |before|);
    }
  }

  // ---- All local models in turn ----

  /** Records and lists are what asking has left so far, when the run had made the calls in `before`. */
  ghost predicate Tracks(local: seq<string>, a: Asked, before: seq<Record>, records: seq<Record>, verdicts: seq<Verdict>,
                         skipped: seq<string>) {
    records == before + a.calls && verdicts == VerdictsOf(a.marks) && skipped == TiersAt(local, a.skips)
  }

  lemma TracksNothing(local: seq<string>, before: seq<Record>)
    ensures Tracks(local, NOTHING, before, before, [], [])
  {
    assert before + [] == before;
  }

  lemma TracksSkip(local: seq<string>, a: Asked, before: seq<Record>, records: seq<Record>, verdicts: seq<Verdict>,
                   skipped: seq<string>, i: nat)
    requires Tracks(local, a, before, records, verdicts, skipped) && i < |local|
    ensures Tracks(local, Join(a, Skipping(i)), before, records, verdicts, skipped + [local[i]])
  {
    assert a.calls + [] == a.calls && a.marks + [] == a.marks;
    assert TiersAt(local, a.skips + [i]) == TiersAt(local, a.skips) + [local[i]];
  }

  lemma TracksJudge(local: seq<string>, a: Asked, before: seq<Record>, records: seq<Record>, verdicts: seq<Verdict>,
                    skipped: seq<string>, i: nat, n: nat, calls: seq<Record>, v: Verdict)
    requires Tracks(local, a, before, records, verdicts, skipped)
    ensures Tracks(local, Join(a, Judging(i, n, calls, v)), before, records + calls, verdicts + [v], skipped)
  {
    assert a.skips + [] == a.skips && before + a.calls + calls == before + (a.calls + calls);
    assert VerdictsOf(a.marks + [Mark(i, n, v)]) == VerdictsOf(a.marks) + [v];
  }

  lemma TracksBreak(local: seq<string>, a: Asked, before: seq<Record>, records: seq<Record>, verdicts: seq<Verdict>,
                    skipped: seq<string>, calls: seq<Record>)
    requires Tracks(local, a, before, records, verdicts, skipped)
    ensures Tracks(local, Join(a, NOTHING.(calls := calls, aborted := true)), before, records + calls, verdicts, skipped)
  {
    assert a.skips + [] == a.skips && a.marks + [] == a.marks && before + a.calls + calls == before + (a.calls + calls);
  }

  ghost predicate PlaysAt(q: Query, move: Moves, i: nat, n: nat) {
    move(i, n) == MoveAt(q, i, n)
  }

  /** These are the moves of the query. */
  ghost predicate Plays(q: Query, move: Moves) {
    forall i, n :: PlaysAt(q, move, i, n)
  }

  lemma MovesPlay(q: Query)
    ensures Plays(q, MovesOf(q))
  {
    forall i: nat, n: nat ensures PlaysAt(q, MovesOf(q), i, n) {
    }
  }

  lemma SkipPlays(s: Setup, text: string, move: Moves, i: nat, n: nat)
    requires Plays(QueryOf(s, text), move) && s.skips(text, i)
    ensures move(i, n).Skip?
  {
    assert PlaysAt(QueryOf(s, text), move, i, n);
  }

  /** A turn is the move at its tier's position. */
  lemma TurnPlays(s: Setup, text: string, move: Moves, i: nat, before: seq<Record>, records: seq<Record>, error: Option<Error>,
                  v: Verdict)
    requires Plays(QueryOf(s, text), move) && i < |Locals(s.tiers)| && !s.skips(text, i)
    requires TurnTaken(s, text, Locals(s.tiers)[i], before, records, error, v)
    ensures before <= records && (error.Some? ==> error.value.Abort?)
    ensures move(i, |before|) == if error.Some? then Broke(records[|before|..]) else Judged(records[|before|..], v)
  {
    assert PlaysAt(QueryOf(s, text), move, i, |before|);
    assert records[|before|..] == TurnOf(QueryOf(s, text), Locals(s.tiers)[i], |before|).calls;
  }

  /** Asking is over, and this is what it left. */
  ghost predicate AskedAll(local: seq<string>, move: Moves, a: Asked, before: seq<Record>, records: seq<Record>,
                           verdicts: seq<Verdict>, skipped: seq<string>) {
    a == Scan(move, |local|, 0, |before|) && Tracks(local, a, before, records, verdicts, skipped)
  }

  /** The tiers before the i-th were skipped or not trusted, which left `done`. */
  ghost predicate AskedTo(local: seq<string>, move: Moves, i: nat, done: Asked, before: seq<Record>, records: seq<Record>,
                          verdicts: seq<Verdict>, skipped: seq<string>) {
    ScannedTo(move, |local|, |before|, i, done) && Tracks(local, done, before, records, verdicts, skipped)
  }

  lemma AskSkips(local: seq<string>, move: Moves, i: nat, done: Asked, before: seq<Record>, records: seq<Record>,
                 verdicts: seq<Verdict>, skipped: seq<string>)
    requires AskedTo(local, move, i, done, before, records, verdicts, skipped) && i < |local| && move(i, |records|).Skip?
    ensures AskedTo(local, move, i + 1, Join(done, Skipping(i)), before, records, verdicts, skipped + [local[i]])
  {
    ScanSkips(move, |local|, |before|, i, done);
    TracksSkip(local, done, before, records, verdicts, skipped, i);
  }

  lemma AskJudges(local: seq<string>, move: Moves, i: nat, done: Asked, before: seq<Record>, records: seq<Record>,
                  verdicts: seq<Verdict>, skipped: seq<string>, calls: seq<Record>, v: Verdict)
    requires AskedTo(local, move, i, done, before, records, verdicts, skipped) && i < |local|
    requires move(i, |records|) == Judged(calls, v)
    ensures var next := Join(done, Judging(i, |records|, calls, v));
      if v.escalate then AskedTo(local, move, i + 1, next, before, records + calls, verdicts + [v], skipped)
      else AskedAll(local, move, next.(trusted := Some(i)), before, records + calls, verdicts + [v], skipped)
  {
    ScanJudges(move, |local|, |before|, i, done, calls, v);
    TracksJudge(local, done, before, records, verdicts, skipped, i, |records|, calls, v);
  }

  lemma AskBreaks(local: seq<string>, move: Moves, i: nat, done: Asked, before: seq<Record>, records: seq<Record>,
                  verdicts: seq<Verdict>, skipped: seq<string>, calls: seq<Record>)
    requires AskedTo(local, move, i, done, before, records, verdicts, skipped) && i < |local|
    requires move(i, |records|) == Broke(calls)
    ensures AskedAll(local, move, Join(done, NOTHING.(calls := calls, aborted := true)), before, records + calls, verdicts, skipped)
  {
    ScanBreaks(move, |local|, |before|, i, done, calls);
    TracksBreak(local, done, before, records, verdicts, skipped, calls);
  }

  lemma AskStarts(local: seq<string>, move: Moves, before: seq<Record>)
    ensures AskedTo(local, move, 0, NOTHING, before, before, [], [])
  {
    ScanStarts(move, |local|, |before|);
    TracksNothing(local, before);
  }

  lemma AskEnds(local: seq<string>, move: Moves, done: Asked, before: seq<Record>, records: seq<Record>,
                verdicts: seq<Verdict>, skipped: seq<string>)
    requires AskedTo(local, move, |local|, done, before, records, verdicts, skipped)
    ensures AskedAll(local, move, done, before, records, verdicts, skipped)
  {
    ScanEnds(move, |local|, |before|, done);
  }

  lemma AskedMeans(s: Setup, text: string, a: Asked, before: seq<Record>, records: seq<Record>, verdicts: seq<Verdict>,
                   skipped: seq<string>)
    requires Configured(s) && a == Ask(QueryOf(s, text), |before|)
    requires Tracks(Locals(s.tiers), a, before, records, verdicts, skipped)
    ensures FewCalls(before, records, |Locals(s.tiers)|, s.policy.samples + 1)
    ensures Meant(QueryOf(s, text), a, records, verdicts, skipped) && !(a.trusted.Some? && a.aborted)
  {
    QueryIsProper(s, text);
    TrustedInRange(QueryOf(s, text), |before|);
    AskMeans(QueryOf(s, text), |before|, records);
  }

  // ---- Extraction, planning and the workers ----

  lemma OnlyKey(sources: map<string, string>, key: string)
    requires |sources| == 1 && key in sources
    ensures sources.Keys == {key}
  {
    assert |sources.Keys - {key}| == 0;
  }

  lemma ExtractedHere(sources: map<string, string>, key: string, candidate: Json)
    requires sources.Keys == {key}
    ensures Extracted(sources, candidate) == ExactExtraction(sources, key, candidate)
  {
    assert forall k :: sources.Keys == {k} ==> k in sources.Keys;
  }

  lemma NothingToExtract(sources: map<string, string>, candidate: Json)
    requires |sources| != 1
    ensures Extracted(sources, candidate) == None
  {
    assert |sources.Keys| == |sources|;
  }

  /** A plan that parse returns and that uses the local models is the draft. */
  lemma ParsedIsDraft(s: Setup, req: Request, parts: Parts, value: Json, plan: Plans.Plan)
    requires DraftsAt(s, parts, req, value) && Offers(s, req, value, plan)
    ensures parts.draft(req, value) == Some(plan)
  {
    OffersOne(s, req, value, plan, parts.draft(req, value).value);
  }

  lemma IdleIsNoDraft(s: Setup, req: Request, parts: Parts, value: Json, plan: Plans.Plan)
    requires DraftsAt(s, parts, req, value) && Plans.Spells(value, plan, s.limits.maxTasks, s.tiers) && !UsesLocals(s, req, plan)
    ensures parts.draft(req, value) == None
  {
    if parts.draft(req, value).Some? {
      Plans.SpelledOnce(value, plan, parts.draft(req, value).value, s.limits.maxTasks, s.tiers);
    }
  }

  lemma UnparsedIsNoDraft(s: Setup, req: Request, parts: Parts, value: Json)
    requires DraftsAt(s, parts, req, value)
    requires !Plans.Readable(value, req.sources, s.limits.maxTasks, s.tiers) ||
      !Layers.Acyclic(Plans.GraphOf(Plans.RowsOf(value, s.limits.maxTasks, s.tiers)))
    ensures parts.draft(req, value) == None
  {
    if parts.draft(req, value).Some? {
      Plans.AcceptedIsReadable(value, parts.draft(req, value).value, req.sources, s.limits.maxTasks, s.tiers);
    }
  }

  /** The plan in the planner's reply, if there is a usable one. */
  method ReadPlan(s: Setup, req: Request, ghost parts: Parts, value: Json) returns (plan: Option<Plans.Plan>)
    requires DraftsAt(s, parts, req, value)
    ensures plan == parts.draft(req, value)
  {
    var parsed := Plans.Parse(value, req.sources, s.limits.maxTasks, s.tiers);
    if parsed.Err? {
      UnparsedIsNoDraft(s, req, parts, value);
      return None;
    }
    if !UsesLocals(s, req, parsed.value) {
      IdleIsNoDraft(s, req, parts, value, parsed.value);
      return None;
    }
    ParsedIsDraft(s, req, parts, value, parsed.value);
    return Some(parsed.value);
  }

  /** Replies to this request are read as parse reads them. */
  ghost predicate Drafts(s: Setup, parts: Parts, req: Request) {
    forall value :: DraftsAt(s, parts, req, value)
  }

  /** How planning came out. */
  ghost predicate PlannedAs(p: Planned, books: Books, error: Option<Error>, plan: Plans.Plan) {
    && books == p.books
    && match p
       case Drawn(_, drawn) => error.None? && plan == drawn
       case Undrawn(_, e) => error == Some(e)
  }

  /** What the run raises when the workers are in this state. */
  function FailureOf(main: Scheduler.Main): Option<Error> {
    match main
    case Completed => None
    case Stopped => Some(TasksFailed)
    case _ => Some(Unfinished)
  }

  // ---- The run ----

  class Run {
    const setup: Setup
    const budget: CloudBudget
    var records: seq<Record>
    var results: map<string, Json>
    var verdicts: seq<Verdict>
    var skipped: seq<string>
    var route: Option<string>

    ghost function Current(): Books
      reads this, budget
    {
      Books(records, budget.Value())
    }

    /** At every step the budget's count is the number of cloud records, and within the limits. */
    ghost predicate Valid()
      reads this, budget
    {
      budget.limits == setup.limits && Sound(setup.limits, Current())
    }

    constructor (setup: Setup)
      ensures Valid() && fresh(budget) && this.setup == setup && Current() == EMPTY
      ensures results == map[] && verdicts == [] && skipped == [] && route == None
    {
      this.setup := setup;
      budget := new CloudBudget(setup.limits);
      records, results, verdicts, skipped, route := [], map[], [], [], None;
    }

    /** A cloud call is charged first and may be refused; any call that is made leaves a record. */
    method Book(tier: string, op: Operation, attempt: nat) returns (refused: Option<string>)
      requires Valid()
      modifies this`records, budget
      ensures Valid() && Current() == Booked(setup.limits, old(Current()), tier, op, attempt)
      ensures refused == Refused(setup.limits, old(Current()), tier, op)
    {
      BookedIsSound(setup.limits, Current(), tier, op, attempt);
      refused := None;
      if tier == CLOUD {
        refused := budget.Spend(op);
        if refused.Some? {
          return;
        }
      }
      records := records + [Scheduler.Record(tier, op, "", attempt)];
    }

    /** One model call: refused without a trace, or on record and read. */
    method CallWithRecord(tier: string, op: Operation, attempt: nat) returns (r: Called)
      requires Valid()
      modifies this`records, budget
      ensures Valid() && Current() == Booked(setup.limits, old(Current()), tier, op, attempt)
      ensures r == CallOf(setup, old(Current()), tier, op)
      ensures tier == CLOUD && old(Refusal(setup.limits, budget.Value(), op)).Some? <==> r.Raise? && r.error.OverBudget?
      ensures if r.Raise? && r.error.OverBudget? then Current() == old(Current())
        else records == old(records) + [Scheduler.Record(tier, op, "", attempt)]
      ensures !Final(op) && old(Reserved(setup.limits, budget.Value())) ==> Reserved(setup.limits, budget.Value())
    {
      ghost var before := Current();
      BookedIsSound(setup.limits, before, tier, op, attempt);
      var n := |records|;
      var refused := Book(tier, op, attempt);
      if refused.Some? {
        return Raise(OverBudget(refused.value));
      }
      return Reading(op, Outcome(setup.world, n));
    }

    /** A call to a local model, which is never refused or charged. */
    method CallLocal(tier: string, op: Operation, attempt: nat) returns (r: Called)
      requires Valid() && tier != CLOUD
      modifies this`records, budget
      ensures Valid() && budget.Value() == old(budget.Value())
      ensures records == old(records) + [Scheduler.Record(tier, op, "", attempt)]
      ensures r == Reading(op, Outcome(setup.world, |old(records)|))
    {
      r := CallWithRecord(tier, op, attempt);
    }

    /** One answer; a failed call counts as one that asks for help. */
    method SampleOnce(tier: string, attempt: nat) returns (error: Option<Error>, sample: Assessment)
      requires Valid() && tier != CLOUD
      modifies this`records, budget
      ensures Valid() && budget.Value() == old(budget.Value())
      ensures records == old(records) + [Scheduler.Record(tier, Solve, "", attempt)]
      ensures error == if Outcome(setup.world, |old(records)|).Aborted? then Some(Abort) else None
      ensures error.None? ==> sample == SampleFrom(setup.world, |old(records)|)
    {
      var n := |records|;
      var r := CallLocal(tier, Solve, attempt);
      error := if r.Raise? && r.error.Abort? then Some(Abort) else None;
      sample := if r.Raise? then FAILED_SAMPLE else Assess(setup.world, n, r.value);
    }

    /** One more answer after those so far: sampling breaks off, ends or goes on. */
    method NextSample(tier: string, samples: seq<Assessment>, ghost before: seq<Record>)
      returns (error: Option<Error>, sample: Assessment)
      requires Valid() && tier != CLOUD && |samples| < setup.policy.samples
      requires SoFar(setup.world, setup.policy.samples, tier, before, records, samples)
      modifies this`records, budget
      ensures Valid() && budget.Value() == old(budget.Value()) && (error.Some? ==> error.value.Abort?)
      ensures SampledTo(setup.world, setup.policy.samples, tier, before, records, samples, error, sample)
    {
      SamplesNext(setup.world, setup.policy.samples, tier, before, records, samples);
      error, sample := SampleOnce(tier, |samples| + 1);
    }

    /** One model answers until it asks for help or S answers are there. */
    method Samples(tier: string) returns (error: Option<Error>, samples: seq<Assessment>)
      requires Valid() && tier != CLOUD
      modifies this`records, budget
      ensures Valid() && budget.Value() == old(budget.Value()) && (error.Some? ==> error.value.Abort?)
      ensures SamplingEnded(setup.world, setup.policy.samples, tier, old(records), records, Sampled(samples, error.Some?))
    {
      samples := [];
      SamplesStart(setup.world, setup.policy.samples, tier, records);
      for i := 0 to setup.policy.samples
        invariant Valid() && budget.Value() == old(budget.Value()) && |samples| == i
        invariant SoFar(setup.world, setup.policy.samples, tier, old(records), records, samples)
      {
        var failed, sample := NextSample(tier, samples, old(records));
        if failed.Some? {
          return failed, samples;
        }
        samples := samples + [sample];
        if sample.needsEscalation {
          return None, samples;
        }
      }
      SamplesEnd(setup.world, setup.policy.samples, tier, old(records), records, samples);
      return None, samples;
    }

    /** The critic checks the first answer, unless it is disabled or the model asked for help. */
    method Critic(tier: string, samples: seq<Assessment>) returns (error: Option<Error>, critique: Critique)
      requires Valid() && tier in Locals(setup.tiers)
      modifies this`records, budget
      ensures Valid() && budget.Value() == old(budget.Value())
      ensures critique == CritiqueFrom(setup.policy, setup.world, samples, |old(records)|)
      ensures records == old(records) + CriticCalls(setup.policy, Locals(setup.tiers), tier, samples)
      ensures error == if records != old(records) && Outcome(setup.world, |old(records)|).Aborted? then Some(Abort) else None
    {
      if !setup.policy.useCritic {
        return None, Critique.Critique(true, 0.0, true);
      }
      if Requested(samples) {
        return None, Critique.Critique(false, 1.0, true);
      }
      var r := CallLocal(CriticTier(setup.policy, tier, Locals(setup.tiers)), Operation.Critique, |samples| + 1);
      if r.Raise? {
        return if r.error.Abort? then Some(Abort) else None, Critique.Critique(false, 1.0, false);
      }
      return None, Judge(setup.world, r.value);
    }

    /** One local model answers, a critic checks it, the policy decides; all of it without the cloud. */
    method JudgeLocally(tier: string, text: string) returns (error: Option<Error>, verdict: Verdict)
      requires Configured(setup) && Valid() && tier in Locals(setup.tiers)
      modifies this`records, budget
      ensures Valid() && budget.Value() == old(budget.Value())
      ensures TurnTaken(setup, text, tier, old(records), records, error, verdict)
      ensures error.None? ==> Turn(QueryOf(setup, text), tier, records, |old(records)|, verdict.evidence)
    {
      verdict := Verdict(tier, Tuning.Evidence([], Critique.Critique(false, 1.0, false)), true);
      var samples;
      error, samples := Samples(tier);
      if error.Some? {
        TurnBreaks(setup, text, tier, old(records), records, Sampled(samples, true), verdict);
        return;
      }
      ghost var solved := records;
      var critique;
      error, critique := Critic(tier, samples);
      var evidence := Tuning.Evidence(samples, critique);
      verdict := Verdict(tier, evidence, setup.decides(text, tier, evidence));
      TurnEnds(setup, text, tier, old(records), solved, records, samples, error, verdict);
      TurnIsOnRecord(setup, text, tier, old(records), records, error, verdict);
    }

    /** The turn of the tier at position i, when asking so far has left `done`. */
    method AskNext(text: string, i: nat, ghost move: Moves, ghost before: seq<Record>, ghost done: Asked)
      returns (error: Option<Error>, verdict: Verdict, ghost next: Asked)
      requires Configured(setup) && Valid() && Plays(QueryOf(setup, text), move)
      requires i < |Locals(setup.tiers)| && !setup.skips(text, i)
      requires AskedTo(Locals(setup.tiers), move, i, done, before, records, verdicts, skipped)
      modifies this`records, this`verdicts, budget
      ensures Valid() && budget.Value() == old(budget.Value())
      ensures error.None? && verdict.escalate ==>
        AskedTo(Locals(setup.tiers), move, i + 1, next, before, records, verdicts, skipped)
      ensures error.Some? || !verdict.escalate ==>
        && AskedAll(Locals(setup.tiers), move, next, before, records, verdicts, skipped)
        && error == (if next.aborted then Some(Abort) else None) && next.trusted == if next.aborted then None else Some(i)
    {
      ghost var start := records;
      error, verdict := JudgeLocally(Locals(setup.tiers)[i], text);
      TurnPlays(setup, text, move, i, start, records, error, verdict);
      ghost var calls := records[|start|..];
      assert records == start + calls;
      if error.Some? {
        AskBreaks(Locals(setup.tiers), move, i, done, before, start, verdicts, skipped, calls);
        next := Join(done, NOTHING.(calls := calls, aborted := true));
      } else {
        AskJudges(Locals(setup.tiers), move, i, done, before, start, verdicts, skipped, calls, verdict);
        next := Join(done, Judging(i, |start|, calls, verdict)).(trusted := if verdict.escalate then None else Some(i));
        verdicts := verdicts + [verdict];
      }
    }

    /** Local models in turn, smallest first, until one is trusted. */
    method AskInTurn(text: string, ghost move: Moves) returns (error: Option<Error>, ghost a: Asked)
      requires Configured(setup) && Valid() && Plays(QueryOf(setup, text), move) && route.None? && verdicts == [] && skipped == []
      modifies this`records, this`verdicts, this`skipped, this`route, budget
      ensures Valid() && budget.Value() == old(budget.Value())
      ensures AskedAll(Locals(setup.tiers), move, a, old(records), records, verdicts, skipped)
      ensures error == (if a.aborted then Some(Abort) else None) && route == TierAt(Locals(setup.tiers), a.trusted)
    {
      var local := Locals(setup.tiers);
      a := NOTHING;
      AskStarts(local, move, records);
      for i := 0 to |local|
        invariant Valid() && budget.Value() == old(budget.Value()) && route.None?
        invariant AskedTo(local, move, i, a, old(records), records, verdicts, skipped)
      {
        if setup.skips(text, i) {
          SkipPlays(setup, text, move, i, |records|);
          AskSkips(local, move, i, a, old(records), records, verdicts, skipped);
          skipped, a := skipped + [local[i]], Join(a, Skipping(i));
          continue;
        }
        var verdict;
        error, verdict, a := AskNext(text, i, move, old(records), a);
        if error.Some? {
          return;
        }
        if !verdict.escalate {
          route := Some(local[i]);
          return;
        }
      }
      AskEnds(local, move, a, old(records), records, verdicts, skipped);
      return None, a;
    }

    /** The local models are asked as their definition says, which means what it should. */
    method AskLocals(text: string) returns (error: Option<Error>)
      requires Configured(setup) && Valid() && route.None? && verdicts == [] && skipped == []
      modifies this`records, this`verdicts, this`skipped, this`route, budget
      ensures Valid() && budget.Value() == old(budget.Value())
      ensures var a := Ask(QueryOf(setup, text), |old(records)|);
        && Tracks(Locals(setup.tiers), a, old(records), records, verdicts, skipped)
        && route == TierAt(Locals(setup.tiers), a.trusted) && error == if a.aborted then Some(Abort) else None
      ensures FewCalls(old(records), records, |Locals(setup.tiers)|, setup.policy.samples + 1)
      ensures AllSourced(QueryOf(setup, text), records, verdicts)
      ensures route.Some? ==> error.None? && FirstTrusted(QueryOf(setup, text), verdicts, skipped, route.value)
      ensures route.None? && error.None? ==> NobodyTrusted(QueryOf(setup, text), verdicts, skipped)
    {
      MovesPlay(QueryOf(setup, text));
      ghost var a;
      error, a := AskInTurn(text, MovesOf(QueryOf(setup, text)));
      AskedMeans(setup, text, a, old(records), records, verdicts, skipped);
    }

    /** The extraction attempt: one local call, and an answer only if it copies the only source. */
    method TryExtract(sources: map<string, string>) returns (error: Option<Error>, answer: Option<string>, candidate: Json)
      requires Valid()
      modifies this`records, budget
      ensures Valid() && budget.Value() == old(budget.Value()) && records == old(records) + EXTRACT_CALLS
      ensures match Reading(Attempt, Outcome(setup.world, |old(records)|))
        case Raise(e) => error == Some(e)
        case Value(value) => error.None? && candidate == value && answer == Extracted(sources, value)
      ensures error.None? && answer.Some? ==>
        exists key :: sources.Keys == {key} && answer == Some("**" + key + "**: " + sources[key])
    {
      answer, candidate := None, JNull;
      var r := CallLocal("local", Attempt, 0);
      if r.Raise? {
        return Some(r.error), answer, candidate;
      }
      candidate := r.value;
      if |sources| == 1 {
        var key :| key in sources;
        OnlyKey(sources, key);
        answer := ExactExtraction(sources, key, candidate);
        ExtractedHere(sources, key, candidate);
        ExtractionIsWholeSource(sources, key, candidate);
      } else {
        NothingToExtract(sources, candidate);
      }
      return None, answer, candidate;
    }

    /** The planner may try again with its validation error; a failed or refused call ends the planning. */
    method Plan(req: Request, ghost parts: Parts) returns (error: Option<Error>, plan: Plans.Plan)
      requires Valid() && Drafts(setup, parts, req)
      modifies this`records, budget
      ensures Valid() && PlannedAs(Planning(setup, req, parts, old(Current()), 0), Current(), error, plan)
    {
      plan := Plans.Plan([], "");
      for attempt := 0 to setup.policy.planAttempts
        invariant Valid()
        invariant Planning(setup, req, parts, old(Current()), 0) == Planning(setup, req, parts, Current(), attempt)
      {
        var r := CallWithRecord(CLOUD, Operation.Plan, attempt + 1);
        if r.Raise? {
          return Some(r.error), plan;
        }
        assert DraftsAt(setup, parts, req, r.value);
        var found := ReadPlan(setup, req, parts, r.value);
        if found.Some? {
          return None, found.value;
        }
      }
      return Some(Invalid(NO_GRAPH)), plan;
    }

    /** Planning ends as its definition does, which means what it should. */
    method MakePlan(req: Request, ghost parts: Parts) returns (error: Option<Error>, plan: Plans.Plan)
      requires Valid() && Reserved(setup.limits, budget.Value()) && Drafts(setup, parts, req)
      modifies this`records, budget
      ensures Valid() && PlannedAs(Planning(setup, req, parts, old(Current()), 0), Current(), error, plan)
      ensures Spends(setup.limits, old(Current()), Current(), setup.policy.planAttempts)
      ensures error.None? ==> PlannedBy(setup, req, parts, Current(), plan)
      ensures error.Some? && error.value.Invalid? ==> |records| == |old(records)| + setup.policy.planAttempts
    {
      PlanningIsSound(setup, req, parts, Current());
      error, plan := Plan(req, parts);
    }

    /** The run takes over what the workers leave. */
    method Absorb(end: Finish) returns (error: Option<Error>)
      requires budget.limits == setup.limits && Sound(setup.limits, end.books)
      modifies this`records, this`results, budget
      ensures Valid() && Current() == end.books && results == end.results
      ensures error == FailureOf(end.main)
    {
      records, results := end.books.records, end.results;
      budget.calls, budget.workerCalls := end.books.spent.calls, end.books.spent.workerCalls;
      error := FailureOf(end.main);
    }

    /** The workers share the run's budget, records and results; they start with what the run has so far. */
    method RunTasks(job: Job, schedule: seq<Scheduler.Step>, ghost parts: Parts) returns (error: Option<Error>)
      requires Valid() && Startable(job) && job.limits == setup.limits && DoesAt(parts, schedule, job)
      modifies this`records, this`results, budget
      ensures Valid() && Current() == parts.work(job).books && results == parts.work(job).results
      ensures error == FailureOf(parts.work(job).main)
    {
      WorkLeft(parts, job, schedule, job.policy.workerAttempts + |job.tiers| - 1);
      var end := RunPlan(job, schedule);
      error := Absorb(FinishOf(end));
    }

    /** The call that writes the answer: its text must not be blank. */
    method WriteAnswer(op: Operation) returns (r: Ending)
      requires Valid()
      modifies this`records, budget
      ensures Valid() && r == Written(setup, old(Current()), op)
      ensures Current() == Booked(setup.limits, old(Current()), CLOUD, op, 0)
      ensures old(Refusal(setup.limits, budget.Value(), op)).None? ==> !(r.Stopped? && r.error.OverBudget?)
      ensures r.Answered? && Final(op) ==> Wrote(setup.world, |records|, r.text)
      ensures Final(op) && old(Refusal(setup.limits, budget.Value(), op)).None? ==> Concluded(setup.world, |records|, r)
    {
      WrittenMeans(setup, Current(), op);
      var called := CallWithRecord(CLOUD, op, 0);
      if called.Raise? {
        return Stopped(called.error);
      }
      if !called.value.JStr? || Blank(called.value.s) {
        return Stopped(Invalid(NO_ANSWER));
      }
      return Answered(called.value.s);
    }

    /** Synthesize what the workers left, if they completed. */
    method Synthesizing(job: Job, error: Option<Error>, ghost end: Finish) returns (r: Ending, ghost e: CloudEnd)
      requires Valid() && Current() == end.books && results == end.results && error == FailureOf(end.main)
      modifies this`records, budget
      ensures Valid() && e == After(setup, job, end) && Current() == e.books && results == e.results && r == e.ending
    {
      e := After(setup, job, end);
      if error.Some? {
        return Stopped(error.value), e;
      }
      r := WriteAnswer(Synthesize);
    }

    /** Run the subtasks and synthesize. */
    method RunAndWrite(job: Job, schedule: seq<Scheduler.Step>, ghost parts: Parts) returns (r: Ending, ghost e: CloudEnd)
      requires Valid() && Startable(job) && job.limits == setup.limits && DoesAt(parts, schedule, job)
      modifies this`records, this`results, budget
      ensures Valid() && e == After(setup, job, parts.work(job)) && Current() == e.books && results == e.results && r == e.ending
    {
      var error := RunTasks(job, schedule, parts);
      r, e := Synthesizing(job, error, parts.work(job));
    }

    /** Plan, run the subtasks, synthesize. */
    method PlanAndRun(req: Request, schedule: seq<Scheduler.Step>, ghost parts: Parts) returns (r: Ending, ghost e: CloudEnd)
      requires Configured(setup) && Valid() && Reserved(setup.limits, budget.Value()) && results == map[] && req.plans
      requires Genuine(setup, parts, schedule)
      modifies this`records, this`results, budget
      ensures Valid() && e == Cloud(setup, req, parts, old(Current()))
      ensures Current() == e.books && results == e.results && r == e.ending
    {
      var error, plan := MakePlan(req, parts);
      if error.Some? {
        return Stopped(error.value), CloudEnd(Stopped(error.value), Current(), map[], None, false);
      }
      PlannedIsFor(setup, req, parts, schedule, Current(), plan);
      var job := Job(plan, req.sources, setup.tiers, setup.limits, setup.policy, budget.Value(), records,
                     setup.world.line, setup.world.provider);
      r, e := RunAndWrite(job, schedule, parts);
    }

    /** The cloud takes over. */
    method AskCloud(req: Request, schedule: seq<Scheduler.Step>, ghost parts: Parts) returns (r: Ending, ghost e: CloudEnd)
      requires Configured(setup) && Valid() && Reserved(setup.limits, budget.Value()) && results == map[]
      requires Genuine(setup, parts, schedule)
      modifies this`records, this`results, budget
      ensures Valid() && e == Cloud(setup, req, parts, old(Current()))
      ensures Current() == e.books && results == e.results && r == e.ending
    {
      if req.plans {
        r, e := PlanAndRun(req, schedule, parts);
      } else {
        e := Writing(setup, Current(), Answer, map[], None);
        r := WriteAnswer(Answer);
      }
    }

    /** The run is where the local part ends. */
    ghost predicate At(l: LocalEnd)
      reads this, budget
    {
      && Current() == Books(l.calls, Spent(0, 0)) && results == l.results
      && verdicts == l.verdicts && skipped == l.skipped && route == l.route
    }

    method AskFor(text: string) returns (r: Option<Ending>)
      requires Configured(setup) && Valid() && budget.Value() == Spent(0, 0)
      requires results == map[] && verdicts == [] && skipped == [] && route.None?
      modifies this`records, this`verdicts, this`skipped, this`route, budget
      ensures Valid() && At(Asking(setup, text, old(records))) && r == Asking(setup, text, old(records)).ending
    {
      TrustedInRange(QueryOf(setup, text), |records|);
      var error := AskLocals(text);
      if error.Some? {
        return Some(Stopped(error.value));
      }
      return if route.Some? then Some(Answered(AnswerOf(verdicts))) else None;
    }

    /** The part of a run that stays on local models; no ending means that the cloud has to take over. */
    method AskLocally(req: Request) returns (r: Option<Ending>)
      requires Configured(setup) && Valid() && Current() == EMPTY
      requires results == map[] && verdicts == [] && skipped == [] && route.None?
      modifies this`records, this`results, this`verdicts, this`skipped, this`route, budget
      ensures Valid() && At(Locally(setup, req)) && r == Locally(setup, req).ending
    {
      if req.extract {
        var error, answer, candidate := TryExtract(req.sources);
        assert records == EXTRACT_CALLS;
        if error.Some? {
          return Some(Stopped(error.value));
        }
        if answer.Some? {
          results, route := map["local_answer" := candidate], Some("local");
          return Some(Answered(answer.value));
        }
      }
      r := AskFor(req.text);
    }

    /** The run is where its definition ends. */
    ghost predicate AtEnd(whole: Whole)
      reads this, budget
    {
      && Current() == BooksIn(whole) && results == ResultsIn(whole) && route == RouteIn(whole)
      && verdicts == whole.local.verdicts && skipped == whole.local.skipped
    }

    /** The local models first, then the cloud: the run ends where its definition does. */
    method Proceed(req: Request, schedule: seq<Scheduler.Step>, ghost parts: Parts) returns (r: Ending, ghost whole: Whole)
      requires Configured(setup) && Valid() && Current() == EMPTY
      requires results == map[] && verdicts == [] && skipped == [] && route == None && Genuine(setup, parts, schedule)
      modifies this, budget
      ensures Valid() && whole == RunOf(setup, req, parts) && AtEnd(whole) && r == EndingIn(whole)
    {
      var ending := AskLocally(req);
      if ending.Some? {
        return ending.value, Whole(Locally(setup, req), None);
      }
      route := Some(CLOUD);
      ghost var e;
      r, e := AskCloud(req, schedule, parts);
      whole := Whole(Locally(setup, req), Some(e));
    }

    /**
     The whole run, whatever the models do and however the workers interleave. The workers follow `schedule`, and
     `parts` says what that leaves and how replies are read as plans.
     */
    method Execute(req: Request, schedule: seq<Scheduler.Step>, ghost parts: Parts) returns (r: Ending, ghost whole: Whole)
      requires Configured(setup) && Valid() && Current() == EMPTY
      requires results == map[] && verdicts == [] && skipped == [] && route == None && Genuine(setup, parts, schedule)
      modifies this, budget
      ensures Valid() && whole == RunOf(setup, req, parts) && AtEnd(whole) && r == EndingIn(whole)
      // The number of calls.
      ensures WithinBound(setup, |records|)
      // The verdicts are decisions on what the models said in the calls on record.
      ensures AllSourced(QueryOf(setup, req.text), records, verdicts) && (r.Answered? ==> route.Some?)
      // A local route cost nothing, and is the first unskipped tier that was trusted (or an exact extraction).
      ensures route.Some? && route.value != CLOUD ==>
        && r.Answered? && Scheduler.CloudRecords(records) == 0
        && AnswersLocally(setup, req, verdicts, skipped, route.value, r.text)
      // Otherwise every local tier was skipped or not trusted, and the answer is what the cloud wrote last.
      ensures route == Some(CLOUD) ==> NobodyTrusted(QueryOf(setup, req.text), verdicts, skipped) && whole.cloud.Some?
      ensures route == Some(CLOUD) && r.Answered? ==> whole.cloud.value.reached && Wrote(setup.world, |records|, r.text)
      // Once the last call was made, what it came to is how the run ends: a text that is not blank is the answer.
      ensures route == Some(CLOUD) && whole.cloud.value.reached ==>
        Concluded(setup.world, |records|, r) || (r.Stopped? && r.error.OverBudget?)
      // The last call is never refused.
      ensures route == Some(CLOUD) && whole.cloud.value.reached && setup.limits.cloudEnabled && setup.limits.cloudCalls >= 1 ==>
        !(r.Stopped? && r.error.OverBudget?)
      // The results are the workers' own, started on the planner's last reply to this request.
      ensures route == Some(CLOUD) ==> RanJob(setup, req, parts, whole.cloud.value)
      ensures JobIn(whole).Some? ==> JobFor(setup, req, JobIn(whole).value)
    {
      r, whole := Proceed(req, schedule, parts);
      GenuineRunMeans(setup, req, parts, schedule);
      RunJob(setup, req, parts, schedule);
    }
  }

  /** One request under a policy: a new run that judges by the policy's own rules, and the meaning of where it ends. */
  method RunRequest(tiers: seq<string>, limits: Limits, p: Policy, m: Measures, w: World, req: Request,
                    schedule: seq<Scheduler.Step>) returns (r: Ending, run: Run)
    requires |p.weights| == SIGNALS && Configured(ByRules(tiers, limits, p, m, w))
    ensures var s := ByRules(tiers, limits, p, m, w); var whole := RunOf(s, req, PartsOf(s, schedule));
      && run.setup == s && run.AtEnd(whole) && r == EndingIn(whole) && Meaning(s, req, PartsOf(s, schedule), whole)
      && ByPolicy(QueryOf(s, req.text), m, req.text)
    ensures fresh(run) && fresh(run.budget)
  {
    var s := ByRules(tiers, limits, p, m, w);
    RulesDecide(tiers, limits, p, m, w, req.text);
    ghost var parts := PartsOf(s, schedule);
    PartsAreGenuine(s, schedule);
    GenuineRunMeans(s, req, parts, schedule);
    run := new Run(s);
    ghost var whole;
    r, whole := run.Proceed(req, schedule, parts);
  }
}
