/**
 Schedule independence. If replies depend only on the call and nobody interrupts the run, what each
 worker will do is foreseeable from its inputs alone, apart from the budget they race for; and whether
 the budget suffices does not depend on who gets there first.
 */
module SchedulerDeterminism {
  import opened Json
  import opened Layers
  import opened Plans
  import opened Budgets
  import opened Tiers
  import opened Scheduler
  import opened WorkerInvariant
  import opened SchedulerInvariant
  import opened SchedulerRuns
  import opened SchedulerTheorems
  import opened SchedulerProgress
  import Results
  import Sums

  // ---- What a worker comes to if the budget never refuses it ----

  /** The value it stores, if any, the cloud calls it needs, and the calls it makes in all. */
  datatype Forecast = Forecast(result: Option<Json>, demand: nat, calls: nat)

  function Cost(tier: string): nat {
    if tier == CLOUD then 1 else 0
  }

  /** The attempts from number k on, given the errors so far. */
  function Trial(c: Config, id: string, inputs: Results.Inputs, k: nat, errors: seq<string>): Forecast
    requires id in c.tasks && id in c.routes
    decreases |c.routes[id]| - k, 1
  {
    if k >= |c.routes[id]| then Forecast(None, 0, 0)
    else
      var tier := c.routes[id][k];
      var rest := After(c, id, inputs, k, errors, c.provider(tier, Payload(c.tasks[id], inputs, k + 1, errors)));
      Forecast(rest.result, rest.demand + Cost(tier), rest.calls + 1)
  }

  /** What follows once attempt k has been answered. */
  function After(c: Config, id: string, inputs: Results.Inputs, k: nat, errors: seq<string>, outcome: Outcome): Forecast
    requires id in c.tasks && id in c.routes && k < |c.routes[id]|
    decreases |c.routes[id]| - k, 0
  {
    match outcome
    case Aborted => Forecast(None, 0, 0)
    case Failed(message) => Trial(c, id, inputs, k + 1, errors + [message])
    case Replied(raw) =>
      match c.validate(c.tasks[id].resultType, Results.WithoutJudgment(raw), inputs)
      case Some(error) => Trial(c, id, inputs, k + 1, errors + [error])
      case None => Forecast(Some(Results.WithoutJudgment(raw)), 0, 0)
  }

  function Full(c: Config, id: string, inputs: Results.Inputs): Forecast
    requires id in c.tasks && id in c.routes
  {
    Trial(c, id, inputs, 0, [])
  }

  /** The forecast is what the worker has been charged and has called, plus what is still to come. */
  predicate Splits(full: Forecast, w: Worker, rest: Forecast) {
    full.result == rest.result && full.demand == w.charged + rest.demand && full.calls == w.made + rest.calls
  }

  /** The worker is where its forecast says it should be. */
  predicate Foreseen(c: Config, results: map<string, Json>, id: string, w: Worker)
    requires id in c.tasks && id in c.routes
  {
    var full := Full(c, id, w.inputs);
    match w.pc
    case Idle => w.charged == w.made == 0
    case Created => w.charged == w.made == 0
    case Calling => w.attempt < |c.routes[id]| && Splits(full, w, After(c, id, w.inputs, w.attempt, w.errors, AnswerTo(c, id, w)))
    case Reporting(outcome) =>
      w.attempt < |c.routes[id]| && Splits(full, w, After(c, id, w.inputs, w.attempt, w.errors, outcome))
    case Rejecting => Splits(full, w, Trial(c, id, w.inputs, w.attempt + 1, w.errors))
    case Storing => id in results && full == Forecast(Some(results[id]), w.charged, w.made)
    case Done(_) => id in results && full == Forecast(Some(results[id]), w.charged, w.made)
    case Broken(fault) =>
      (match fault
       case Exhausted => full.result.None? && w.charged <= full.demand
       case Crashed => full.result.None? && w.charged <= full.demand
       case Refused => full.demand > w.charged
       case Unresolved => Results.SOURCES in c.tasks[id].inputRefs && w.charged == 0
       case Cancelled => w.charged > 0 ==> w.charged <= full.demand)
    case _ => Splits(full, w, Trial(c, id, w.inputs, w.attempt, w.errors))
  }

  lemma BeginForesees(c: Config, id: string, w: Worker, results: map<string, Json>)
    requires id in c.tasks && id in c.routes
    requires Splits(Full(c, id, w.inputs), w, Trial(c, id, w.inputs, w.attempt, w.errors))
    ensures Foreseen(c, results, id, Begin(c, id, w).worker)
  {
  }

  lemma DialForesees(c: Config, id: string, w: Worker, spent: Spent, results: map<string, Json>)
    requires id in c.tasks && id in c.routes && w.attempt < |c.routes[id]|
    requires Splits(Full(c, id, w.inputs), w, Trial(c, id, w.inputs, w.attempt, w.errors))
    ensures Foreseen(c, results, id, Dial(c, id, w, spent).worker)
  {
    var e := Dial(c, id, w, spent).worker;
    assert AnswerTo(c, id, e) == AnswerTo(c, id, w);
  }

  lemma SettledForesees(c: Config, id: string, w: Worker, results: map<string, Json>)
    requires id in c.tasks && id in c.routes && w.pc.Reporting? && Foreseen(c, results, id, w)
    ensures Foreseen(c, Stored(results, id, Settled(c, id, w)), id, Settled(c, id, w).worker)
  {
  }

  /** The worker leaves its start without inputs only because of the bare reference. */
  predicate Startles(c: Config, id: string, w: Worker, results: map<string, Json>)
    requires id in c.tasks
  {
    w.pc.Created? && !AllResolve(c.tasks[id], c.sources, results) ==> Results.SOURCES in c.tasks[id].inputRefs
  }

  lemma ResumeForesees(c: Config, id: string, w: Worker, results: map<string, Json>, spent: Spent)
    requires Steady(c, id, w, results, Resumed) && w.charged == w.made == 0 && Startles(c, id, w, results)
    ensures var e := React(c, id, w, results, spent, Resumed); Foreseen(c, Stored(results, id, e), id, e.worker)
  {
    if AllResolve(c.tasks[id], c.sources, results) {
      StartForesees(c, id, w, InputsOf(c.tasks[id], c.sources, results), results);
    }
  }

  lemma StartForesees(c: Config, id: string, w: Worker, inputs: Results.Inputs, results: map<string, Json>)
    requires id in c.tasks && id in c.routes && w.charged == w.made == 0
    ensures Foreseen(c, results, id, Begin(c, id, w.(attempt := 0, inputs := inputs, errors := [])).worker)
  {
    BeginForesees(c, id, w.(attempt := 0, inputs := inputs, errors := []), results);
  }

  lemma KillForesees(c: Config, id: string, w: Worker, results: map<string, Json>, spent: Spent)
    requires Steady(c, id, w, results, Killed) && Foreseen(c, results, id, w)
    ensures var e := React(c, id, w, results, spent, Killed); Foreseen(c, Stored(results, id, e), id, e.worker)
  {
    ChargedAsForeseen(c, results, id, w);
  }

  lemma GrantForesees(c: Config, id: string, w: Worker, results: map<string, Json>, spent: Spent)
    requires Steady(c, id, w, results, Granted) && Foreseen(c, results, id, w)
    ensures var e := React(c, id, w, results, spent, Granted); Foreseen(c, Stored(results, id, e), id, e.worker)
  {
  }

  lemma AnswerForesees(c: Config, id: string, w: Worker, results: map<string, Json>, spent: Spent, outcome: Outcome)
    requires Steady(c, id, w, results, Answered(outcome)) && Foreseen(c, results, id, w) && outcome == AnswerTo(c, id, w)
    ensures var e := React(c, id, w, results, spent, Answered(outcome)); Foreseen(c, Stored(results, id, e), id, e.worker)
  {
  }

  /** One resumption keeps to the forecast. */
  lemma ReactForesees(c: Config, id: string, w: Worker, results: map<string, Json>, spent: Spent, trigger: Trigger)
    requires Steady(c, id, w, results, trigger) && Foreseen(c, results, id, w) && Startles(c, id, w, results)
    requires trigger.Answered? ==> trigger.outcome == AnswerTo(c, id, w)
    ensures var e := React(c, id, w, results, spent, trigger); Foreseen(c, Stored(results, id, e), id, e.worker)
  {
    match trigger
    case Resumed => ResumeForesees(c, id, w, results, spent);
    case Heard => HeardForesees(c, id, w, results, spent);
    case Killed => KillForesees(c, id, w, results, spent);
    case Granted => GrantForesees(c, id, w, results, spent);
    case Answered(outcome) => AnswerForesees(c, id, w, results, spent, outcome);
  }

  lemma EscalatedForesees(c: Config, id: string, w: Worker, results: map<string, Json>)
    requires id in c.tasks && id in c.routes && w.pc.Escalating? && w.attempt < |c.routes[id]| && Foreseen(c, results, id, w)
    ensures Foreseen(c, results, id, Enter(c, id, w).worker)
  {
  }

  lemma StoredForesees(c: Config, id: string, w: Worker, results: map<string, Json>)
    requires id in c.tasks && id in c.routes && w.pc.Storing? && id in results && Foreseen(c, results, id, w)
    ensures Foreseen(c, results, id, w.(pc := Done(results[id])))
  {
  }

  /** Which part of the attempt loop runs once the worker's event is delivered. */
  lemma HeardRuns(c: Config, id: string, w: Worker, results: map<string, Json>, spent: Spent)
    requires Steady(c, id, w, results, Heard)
    ensures var e := React(c, id, w, results, spent, Heard);
      && (w.pc.Rejecting? ==> e == Begin(c, id, w.(attempt := w.attempt + 1)))
      && (w.pc.Reporting? ==> e == Settled(c, id, w))
      && (w.pc.Announcing? ==> e == Dial(c, id, w, spent))
      && (w.pc.Escalating? ==> e == Enter(c, id, w))
      && (w.pc.Storing? ==> e == Quiet(w.(pc := Done(results[id]))))
      && (!w.pc.Reporting? ==> Stored(results, id, e) == results)
  {
  }

  lemma HeardForesees(c: Config, id: string, w: Worker, results: map<string, Json>, spent: Spent)
    requires Steady(c, id, w, results, Heard) && Foreseen(c, results, id, w)
    ensures var e := React(c, id, w, results, spent, Heard); Foreseen(c, Stored(results, id, e), id, e.worker)
  {
    HeardRuns(c, id, w, results, spent);
    if w.pc.Rejecting? {
      BeginForesees(c, id, w.(attempt := w.attempt + 1), results);
    } else if w.pc.Reporting? {
      SettledForesees(c, id, w, results);
    } else if w.pc.Announcing? {
      DialForesees(c, id, w, spent, results);
    } else if w.pc.Escalating? {
      EscalatedForesees(c, id, w, results);
    } else {
      StoredForesees(c, id, w, results);
    }
  }

  // ---- The whole system keeps to the forecasts ----

  ghost predicate AllForeseen(c: Config, s: State) {
    && s.workers.Keys == c.tasks.Keys == c.routes.Keys
    && forall id :: id in c.tasks ==> Foreseen(c, s.results, id, s.workers[id])
  }

  lemma ForeseenStable(c: Config, old_: map<string, Json>, new_: map<string, Json>, id: string, w: Worker)
    requires id in c.tasks && id in c.routes && Foreseen(c, old_, id, w) && Extends(old_, new_)
    ensures Foreseen(c, new_, id, w)
  {
  }

  /** With its dependencies stored, a task fails to resolve only because of the bare reference. */
  lemma UnresolvedIsBare(c: Config, results: map<string, Json>, id: string)
    requires Valid(c) && id in c.tasks && Deps(c.tasks[id]) <= results.Keys
    ensures AllResolve(c.tasks[id], c.sources, results) <==> Results.SOURCES !in c.tasks[id].inputRefs
  {
    var task := c.tasks[id];
    assert ValidTask(c, id, task);
    forall other | other in c.tasks ensures TaskId(other) {
      assert ValidTask(c, other, c.tasks[other]);
    }
    forall i | 0 <= i < |task.inputRefs|
      ensures Resolves(task.inputRefs[i], c.sources, results) <==> task.inputRefs[i] != Results.SOURCES
    {
      ReferenceResolvesIff(task.inputRefs[i], task, c.sources, results, c.tasks.Keys);
    }
  }

  lemma CarryForesees(c: Config, s: State, id: string, e: Effect)
    requires AllForeseen(c, s) && id in c.tasks && Extends(s.results, Stored(s.results, id, e))
    requires Foreseen(c, Stored(s.results, id, e), id, e.worker)
    ensures AllForeseen(c, s.(workers := s.workers[id := e.worker], results := Stored(s.results, id, e)))
  {
    forall other | other in c.tasks && other != id ensures Foreseen(c, Stored(s.results, id, e), other, s.workers[other]) {
      ForeseenStable(c, s.results, Stored(s.results, id, e), other, s.workers[other]);
    }
  }

  lemma CreatedIsBare(c: Config, s: State, id: string)
    requires Valid(c) && id in c.tasks && id in s.workers && WorkersOk(c, s.workers, s.results)
    ensures Startles(c, id, s.workers[id], s.results)
  {
    assert WorkerOk(c, s.results, id, s.workers[id]);
    if s.workers[id].pc.Created? {
      UnresolvedIsBare(c, s.results, id);
    }
  }

  lemma EffectForesees(c: Config, s: State, id: string, trigger: Trigger)
    requires AllForeseen(c, s) && id in c.tasks && Startles(c, id, s.workers[id], s.results)
    requires Sound(c, id, s.workers[id], s.results, trigger)
    requires trigger.Answered? ==> trigger.outcome == AnswerTo(c, id, s.workers[id])
    ensures var e := React(c, id, s.workers[id], s.results, s.spent, trigger);
      AllForeseen(c, s.(workers := s.workers[id := e.worker], results := Stored(s.results, id, e)))
  {
    assert Foreseen(c, s.results, id, s.workers[id]);
    ReactForesees(c, id, s.workers[id], s.results, s.spent, trigger);
    ReactStores(c, id, s.workers[id], s.results, s.spent, trigger);
    CarryForesees(c, s, id, React(c, id, s.workers[id], s.results, s.spent, trigger));
  }

  lemma ResumedForesees(c: Config, s: State, step: Step)
    requires AllForeseen(c, s) && Shaped(c, s) && Enabled(s, step) && Faithful(c, s, step) && Resumes(s, step).Some?
    requires Sound(c, Who(s, step), s.workers[Who(s, step)], s.results, Resumes(s, step).value.1)
    requires Startles(c, Who(s, step), s.workers[Who(s, step)], s.results)
    ensures var t := Apply(c, s, step);
      AllForeseen(c, s.(workers := t.workers, results := t.results))
  {
    var (id, trigger) := Resumes(s, step).value;
    EffectForesees(c, s, id, trigger);
    ResumedFrame(c, s, step);
  }

  lemma LaunchForesees(c: Config, s: State, ready: set<string>, batch: nat)
    requires AllForeseen(c, s) && forall id :: id in ready && id in s.workers ==> s.workers[id].pc.Idle?
    ensures AllForeseen(c, s.(workers := Launch(s.workers, ready, batch)))
  {
    forall id | id in c.tasks ensures Foreseen(c, s.results, id, Launch(s.workers, ready, batch)[id]) {
      assert Foreseen(c, s.results, id, s.workers[id]);
    }
  }

  /** Only the workers and the results matter to the forecasts. */
  lemma ForeseenFrame(c: Config, s: State, t: State)
    requires AllForeseen(c, s.(workers := t.workers, results := t.results))
    ensures AllForeseen(c, t)
  {
    assert s.(workers := t.workers, results := t.results).workers == t.workers;
  }

  lemma StepForesees(c: Config, s: State, step: Step)
    requires Valid(c) && WorkersOk(c, s.workers, s.results) && AllForeseen(c, s)
    requires PhaseOk(c, s.batch, s.active, s.pending, s.workers)
    requires Shaped(c, s) && Enabled(s, step) && Faithful(c, s, step)
    ensures AllForeseen(c, Apply(c, s, step))
  {
    if Resumes(s, step).Some? {
      var id := Who(s, step);
      assert WorkerOk(c, s.results, id, s.workers[id]);
      CreatedIsBare(c, s, id);
      ResumedForesees(c, s, step);
    } else if step.NextBatch? {
      RegatherIdle(c, s);
      AdvanceFrame(c, s);
      NextBatchKeepsWorkers(c, s);
      LaunchForesees(c, s, ReadyIn(c, s.(results := Regather(s)), s.pending - s.active), s.batch + 1);
      assert AllForeseen(c, s.(workers := s.workers));
    } else {
      AsideFrame(c, s, step);
    }
    ForeseenFrame(c, s, Apply(c, s, step));
  }

  // ---- Failures have causes ----

  /** A worker failed by itself. */
  predicate FailedAlone(s: State, id: string) {
    id in s.workers && s.workers[id].pc.Broken? && !s.workers[id].pc.fault.Cancelled?
  }

  /** Unless someone interferes, workers are cancelled only after one has failed by itself. */
  ghost predicate HasCause(s: State) {
    s.main.Draining? || s.main.Stopped? || (exists id :: id in s.workers && s.workers[id].pc == Broken(Cancelled)) ==>
      exists id :: FailedAlone(s, id)
  }

  /** A worker that has ended stays as it is. */
  lemma EndedStays(c: Config, s: State, step: Step, id: string)
    requires Shaped(c, s) && Enabled(s, step) && id in s.workers && Ended(s.workers[id].pc)
    requires PhaseOk(c, s.batch, s.active, s.pending, s.workers)
    ensures id in Apply(c, s, step).workers && Apply(c, s, step).workers[id] == s.workers[id]
  {
    if Resumes(s, step).Some? {
      ResumedFrame(c, s, step);
    } else if step.NextBatch? {
      AdvanceFrame(c, s);
    } else {
      AsideFrame(c, s, step);
    }
  }

  lemma ReactCancels(c: Config, id: string, w: Worker, results: map<string, Json>, spent: Spent, trigger: Trigger)
    requires Steady(c, id, w, results, trigger)
    ensures React(c, id, w, results, spent, trigger).worker.pc == Broken(Cancelled) ==> trigger.Killed?
  {
  }

  lemma ResumedCancels(c: Config, s: State, step: Step, id: string)
    requires Shaped(c, s) && Enabled(s, step) && Resumes(s, step).Some? && id in Apply(c, s, step).workers
    requires Apply(c, s, step).workers[id].pc == Broken(Cancelled) && !step.Cancel?
    ensures id in s.workers && s.workers[id].pc == Broken(Cancelled)
  {
    var (who, trigger) := Resumes(s, step).value;
    ReactCancels(c, who, s.workers[who], s.results, s.spent, trigger);
    CarryFrame(Unlock(s, step), who, EffectOf(c, s, step));
  }

  /** Only a Cancel step cancels a worker. */
  lemma CancelledByCancel(c: Config, s: State, step: Step, id: string)
    requires Shaped(c, s) && Enabled(s, step) && id in Apply(c, s, step).workers
    requires Apply(c, s, step).workers[id].pc == Broken(Cancelled)
    ensures step.Cancel? || (id in s.workers && s.workers[id].pc == Broken(Cancelled))
  {
    if Resumes(s, step).Some? {
      if !step.Cancel? {
        ResumedCancels(c, s, step, id);
      }
    } else if step.NextBatch? {
      AdvanceFrame(c, s);
    } else {
      AsideFrame(c, s, step);
    }
  }

  lemma StepKeepsCause(c: Config, s: State, step: Step)
    requires Shaped(c, s) && Enabled(s, step) && Faithful(c, s, step) && HasCause(s)
    requires PhaseOk(c, s.batch, s.active, s.pending, s.workers)
    requires step.NextBatch? ==> !Advance(c, s).main.Stopped?
    ensures HasCause(Apply(c, s, step))
  {
    var t := Apply(c, s, step);
    if id :| FailedAlone(s, id) {
      EndedStays(c, s, step, id);
      assert FailedAlone(t, id);
    } else {
      assert s.main.Running? || s.main.Completed?;
      if step.NoticeFailure? {
        var id :| id in s.active && id in s.workers && s.workers[id].pc.Broken?;
        assert FailedAlone(s, id);
      }
      forall id | id in t.workers ensures t.workers[id].pc != Broken(Cancelled) {
        if t.workers[id].pc == Broken(Cancelled) {
          CancelledByCancel(c, s, step, id);
        }
      }
    }
  }

  // ---- Undisturbed runs ----

  lemma StepForeseesInv(c: Config, s: State, step: Step)
    requires Valid(c) && Inv(c, s) && Shaped(c, s) && AllForeseen(c, s) && HasCause(s)
    requires Enabled(s, step) && Faithful(c, s, step)
    ensures AllForeseen(c, Apply(c, s, step)) && HasCause(Apply(c, s, step))
  {
    StepForesees(c, s, step);
    ValidIsSound(c);
    WorkersStore(c, s.workers, s.results);
    if step.NextBatch? {
      NeverWithoutTask(c, s);
    }
    StepKeepsCause(c, s, step);
  }

  lemma InitForesees(c: Config)
    requires c.routes.Keys == c.tasks.Keys
    ensures AllForeseen(c, Init(c)) && HasCause(Init(c))
  {
  }

  lemma {:induction false} UndisturbedForesees(c: Config, steps: seq<Step>)
    requires Valid(c) && Undisturbed(c, steps) && Exec(c, steps).Some?
    ensures AllForeseen(c, Exec(c, steps).value) && HasCause(Exec(c, steps).value)
  {
    if steps == [] {
      InitForesees(c);
    } else {
      var n := |steps| - 1;
      UndisturbedForesees(c, steps[..n]);
      ExecInv(c, steps[..n]);
      StepForeseesInv(c, Exec(c, steps[..n]).value, steps[n]);
    }
  }

  // ---- Comparing a run with a completed one ----

  lemma InputsAgree(task: Task, sources: map<string, string>, a: map<string, Json>, b: map<string, Json>)
    requires RefsOk(task, sources) && AllResolve(task, sources, a) && AllResolve(task, sources, b)
    requires forall d :: d in Deps(task) ==> d in a && d in b && a[d] == b[d]
    ensures InputsOf(task, sources, a) == InputsOf(task, sources, b)
  {
    forall ref | ref in task.inputRefs ensures InputValue(ref, sources, a) == InputValue(ref, sources, b) {
      var i :| 0 <= i < |task.inputRefs| && task.inputRefs[i] == ref;
      assert RefOk(ref, task, sources) && Resolves(ref, sources, a) && Resolves(ref, sources, b);
    }
  }

  /** Every worker of this run is done, and dependencies ran in earlier batches. */
  ghost predicate AllDone(c: Config, s: State) {
    && s.workers.Keys == c.tasks.Keys
    && (forall id :: id in c.tasks ==> s.workers[id].pc.Done?)
    && (forall id, d :: id in c.tasks && d in Deps(c.tasks[id]) ==> d in c.tasks && s.workers[d].batch < s.workers[id].batch)
  }

  ghost predicate RefsAllOk(c: Config) {
    forall id :: id in c.tasks ==> RefsOk(c.tasks[id], c.sources)
  }

  /** What the comparison needs to know about one worker. */
  ghost predicate Told(c: Config, s: State, id: string)
    requires id in c.tasks && id in c.routes && id in s.workers
  {
    var w := s.workers[id];
    && (Informed(w) ==>
          && InputsBuilt(c, s.results, id, w.inputs)
          && forall d :: d in Deps(c.tasks[id]) ==> Finished(s, d))
    && (w.pc.Storing? || w.pc.Done? ==> id in s.results && Full(c, id, w.inputs).result == Some(s.results[id]))
  }

  ghost predicate AllTold(c: Config, s: State) {
    s.workers.Keys == c.tasks.Keys == c.routes.Keys && forall id :: id in c.tasks ==> Told(c, s, id)
  }

  lemma IsTold(c: Config, s: State, id: string)
    requires id in c.tasks && id in c.routes && id in s.workers && DepsFinished(c, s)
    requires WorkerOk(c, s.results, id, s.workers[id]) && Foreseen(c, s.results, id, s.workers[id])
    ensures Told(c, s, id)
  {
    if Informed(s.workers[id]) {
      forall d | d in Deps(c.tasks[id]) ensures Finished(s, d) {
        assert Started(s, id) && d in GraphIn(c)[id];
      }
    }
  }

  lemma AllAreTold(c: Config, s: State)
    requires WorkersOk(c, s.workers, s.results) && DepsFinished(c, s) && AllForeseen(c, s)
    ensures AllTold(c, s)
  {
    forall id | id in c.tasks ensures Told(c, s, id) {
      assert WorkerOk(c, s.results, id, s.workers[id]) && Foreseen(c, s.results, id, s.workers[id]);
      IsTold(c, s, id);
    }
  }

  /** What two runs have in common: the same inputs and values for the tasks both have worked on. */
  lemma {:induction false} SameInputs(c: Config, done: State, s: State, id: string)
    requires RefsAllOk(c) && AllDone(c, done) && AllTold(c, done) && AllTold(c, s) && id in c.tasks
    ensures Informed(s.workers[id]) ==> s.workers[id].inputs == done.workers[id].inputs
    ensures s.workers[id].pc.Storing? || s.workers[id].pc.Done? ==>
      id in s.results && id in done.results && s.results[id] == done.results[id]
    decreases done.workers[id].batch
  {
    assert Told(c, s, id) && Told(c, done, id);
    if Informed(s.workers[id]) {
      forall d | d in Deps(c.tasks[id]) ensures d in s.results && d in done.results && s.results[d] == done.results[d] {
        assert Finished(s, d);
        SameInputs(c, done, s, d);
      }
      InputsAgree(c.tasks[id], c.sources, s.results, done.results);
    }
  }

  /** No worker has been charged more than in the completed run, one that was refused less. */
  lemma NeverChargedMore(c: Config, done: State, s: State, id: string)
    requires RefsAllOk(c) && AllDone(c, done) && AllTold(c, done) && AllTold(c, s) && id in c.tasks
    requires Foreseen(c, done.results, id, done.workers[id]) && Foreseen(c, s.results, id, s.workers[id])
    ensures s.workers[id].charged <= done.workers[id].charged
    ensures s.workers[id].pc == Broken(Refused) ==> s.workers[id].charged < done.workers[id].charged
    ensures s.workers[id].pc != Broken(Exhausted) && s.workers[id].pc != Broken(Crashed)
  {
    SameInputs(c, done, s, id);
    ChargedLess(c, done.results, s.results, id, done.workers[id], s.workers[id]);
  }

  lemma ChargedLess(c: Config, doneResults: map<string, Json>, results: map<string, Json>, id: string, d: Worker, w: Worker)
    requires id in c.tasks && id in c.routes && d.pc.Done? && (Informed(w) ==> w.inputs == d.inputs)
    requires Foreseen(c, doneResults, id, d) && Foreseen(c, results, id, w)
    ensures w.charged <= d.charged
    ensures w.pc == Broken(Refused) ==> w.charged < d.charged
    ensures w.pc != Broken(Exhausted) && w.pc != Broken(Crashed)
    ensures w.pc.Done? ==> w.made == d.made
  {
    ChargedAsForeseen(c, doneResults, id, d);
    ChargedAsForeseen(c, results, id, w);
  }

  /** The forecast bounds what a worker is charged, and tells how it may end. */
  lemma ChargedAsForeseen(c: Config, results: map<string, Json>, id: string, w: Worker)
    requires id in c.tasks && id in c.routes && Foreseen(c, results, id, w)
    ensures w.charged == 0 || w.charged <= Full(c, id, w.inputs).demand
    ensures w.pc.Done? ==> Full(c, id, w.inputs).result.Some?
    ensures w.pc.Done? ==> w.charged == Full(c, id, w.inputs).demand && w.made == Full(c, id, w.inputs).calls
    ensures w.pc == Broken(Refused) ==> w.charged < Full(c, id, w.inputs).demand
    ensures w.pc == Broken(Exhausted) || w.pc == Broken(Crashed) ==> Full(c, id, w.inputs).result.None?
  {
  }

  /** A worker that is done has made as many calls as in the completed run, and was charged no more. */
  lemma SameNumberOfCalls(c: Config, done: State, s: State, id: string)
    requires RefsAllOk(c) && AllDone(c, done) && AllTold(c, done) && AllTold(c, s) && id in c.tasks
    requires Foreseen(c, done.results, id, done.workers[id]) && Foreseen(c, s.results, id, s.workers[id])
    requires s.workers[id].pc.Done?
    ensures s.workers[id].made == done.workers[id].made && s.workers[id].charged <= done.workers[id].charged
  {
    SameInputs(c, done, s, id);
    ChargedLess(c, done.results, s.results, id, done.workers[id], s.workers[id]);
  }

  /** Where one interleaving completed, no other finds the budget spent. */
  lemma NeverRefused(c: Config, done: State, s: State, id: string)
    requires s.workers.Keys == done.workers.Keys == c.tasks.Keys && id in c.tasks
    requires BudgetOk(c, done.workers, done.spent) && BudgetOk(c, s.workers, s.spent)
    requires forall k :: k in c.tasks ==> s.workers[k].charged <= done.workers[k].charged
    requires s.workers[id].charged < done.workers[id].charged
    ensures s.workers[id].pc != Broken(Refused)
  {
    Sums.SumBelow(c.tasks.Keys, Charges(s.workers), Charges(done.workers), id);
  }

  lemma NobodyChargedMore(c: Config, done: State, s: State)
    requires RefsAllOk(c) && AllDone(c, done) && AllTold(c, done) && AllTold(c, s)
    requires AllForeseen(c, done) && AllForeseen(c, s)
    ensures forall k :: k in c.tasks ==> s.workers[k].charged <= done.workers[k].charged
  {
    forall k | k in c.tasks ensures s.workers[k].charged <= done.workers[k].charged {
      assert Foreseen(c, done.results, k, done.workers[k]) && Foreseen(c, s.results, k, s.workers[k]);
      NeverChargedMore(c, done, s, k);
    }
  }

  lemma NeverUnresolved(c: Config, done: State, s: State, id: string)
    requires AllDone(c, done) && id in c.tasks && id in c.routes && id in s.workers && Told(c, done, id)
    requires Foreseen(c, s.results, id, s.workers[id])
    ensures s.workers[id].pc != Broken(Unresolved)
  {
    ResolvedIsNotBare(c.tasks[id], c.sources, done.results);
  }

  lemma RefusedRuledOut(c: Config, done: State, s: State, id: string)
    requires RefsAllOk(c) && AllDone(c, done) && AllTold(c, done) && AllTold(c, s) && id in c.tasks
    requires AllForeseen(c, done) && AllForeseen(c, s)
    requires BudgetOk(c, done.workers, done.spent) && BudgetOk(c, s.workers, s.spent)
    ensures s.workers[id].pc != Broken(Refused)
  {
    if s.workers[id].pc == Broken(Refused) {
      assert Foreseen(c, done.results, id, done.workers[id]) && Foreseen(c, s.results, id, s.workers[id]);
      NeverChargedMore(c, done, s, id);
      NobodyChargedMore(c, done, s);
      NeverRefused(c, done, s, id);
    }
  }

  lemma OthersRuledOut(c: Config, done: State, s: State, id: string)
    requires RefsAllOk(c) && AllDone(c, done) && AllTold(c, done) && AllTold(c, s) && id in c.tasks
    requires AllForeseen(c, done) && AllForeseen(c, s)
    ensures s.workers[id].pc != Broken(Exhausted) && s.workers[id].pc != Broken(Crashed)
    ensures s.workers[id].pc != Broken(Unresolved)
  {
    assert Told(c, done, id);
    assert Foreseen(c, done.results, id, done.workers[id]) && Foreseen(c, s.results, id, s.workers[id]);
    NeverChargedMore(c, done, s, id);
    NeverUnresolved(c, done, s, id);
  }

  lemma NobodyFailsAlone(c: Config, done: State, s: State)
    requires RefsAllOk(c) && AllDone(c, done) && AllTold(c, done) && AllTold(c, s)
    requires AllForeseen(c, done) && AllForeseen(c, s)
    requires BudgetOk(c, done.workers, done.spent) && BudgetOk(c, s.workers, s.spent)
    ensures forall id :: !FailedAlone(s, id)
  {
    forall id | id in c.tasks ensures !FailedAlone(s, id) {
      RefusedRuledOut(c, done, s, id);
      OthersRuledOut(c, done, s, id);
      FaultCases(s.workers[id].pc);
    }
  }

  lemma FaultCases(pc: Pc)
    ensures !pc.Broken? || pc == Broken(Exhausted) || pc == Broken(Refused) || pc == Broken(Crashed)
      || pc == Broken(Unresolved) || pc == Broken(Cancelled)
  {
    match pc
    case Broken(fault) => match fault { case Exhausted => case Refused => case Crashed => case Unresolved => case Cancelled => }
    case _ =>
  }

  lemma ResolvedIsNotBare(task: Task, sources: map<string, string>, results: map<string, Json>)
    requires AllResolve(task, sources, results)
    ensures Results.SOURCES !in task.inputRefs
  {
    BareNeverResolves(sources, results);
    forall i | 0 <= i < |task.inputRefs| ensures task.inputRefs[i] != Results.SOURCES {
      assert Resolves(task.inputRefs[i], sources, results);
    }
  }

  // ---- The theorem ----

  lemma RankedIsDone(c: Config, s: State)
    requires s.workers.Keys == c.tasks.Keys && Closed(GraphIn(c)) && IsRanking(GraphIn(c), Rounds(c, s.workers, {}))
    requires forall id :: id in c.tasks ==> s.workers[id].pc.Done?
    ensures AllDone(c, s)
  {
    forall id, d | id in c.tasks && d in Deps(c.tasks[id]) ensures d in c.tasks && s.workers[d].batch < s.workers[id].batch {
      assert d in GraphIn(c)[id];
      assert Rounds(c, s.workers, {})[d] < Rounds(c, s.workers, {})[id];
    }
  }

  lemma CompletedIsDone(c: Config, s: State)
    requires BatchOk(c, s) && StoresOk(c, s.workers, s.results) && s.main.Completed? && Closed(GraphIn(c))
    ensures AllDone(c, s)
  {
    CompletedLayers(c, s);
    LayeringIsRanking(GraphIn(c), Rounds(c, s.workers, {}));
    RankedIsDone(c, s);
  }

  lemma ValidRefs(c: Config)
    requires Valid(c)
    ensures RefsAllOk(c)
  {
    forall id | id in c.tasks ensures RefsOk(c.tasks[id], c.sources) {
      assert ValidTask(c, id, c.tasks[id]);
    }
  }

  /** Everything the comparison needs to know about an undisturbed run. */
  ghost predicate Comparable(c: Config, s: State) {
    AllTold(c, s) && AllForeseen(c, s) && HasCause(s) && BudgetOk(c, s.workers, s.spent) && BatchOk(c, s)
    && StoresOk(c, s.workers, s.results) && s.results.Keys <= c.tasks.Keys
    && forall id :: id in s.results && id in s.workers ==> s.workers[id].pc.Storing? || Ended(s.workers[id].pc)
  }

  lemma StoredHaveEnded(c: Config, s: State)
    requires WorkersOk(c, s.workers, s.results)
    ensures forall id :: id in s.results && id in s.workers ==> s.workers[id].pc.Storing? || Ended(s.workers[id].pc)
  {
    forall id | id in s.results && id in s.workers ensures s.workers[id].pc.Storing? || Ended(s.workers[id].pc) {
      assert WorkerOk(c, s.results, id, s.workers[id]);
    }
  }

  lemma UndisturbedIsComparable(c: Config, steps: seq<Step>, s: State)
    requires Valid(c) && Exec(c, steps) == Some(s) && Undisturbed(c, steps)
    ensures Comparable(c, s)
  {
    ExecInv(c, steps);
    UndisturbedForesees(c, steps);
    StartedDepsFinished(c, s);
    AllAreTold(c, s);
    WorkersStore(c, s.workers, s.results);
    StoredHaveEnded(c, s);
  }

  /** Another interleaving of a plan that completed once: nothing fails, and whatever is stored is the same. */
  ghost predicate Matches(c: Config, done: State, s: State) {
    && !s.main.Draining? && !s.main.Stopped?
    && (forall id :: id in s.workers ==> !s.workers[id].pc.Broken?)
    && (forall id :: id in s.results ==> id in done.results && s.results[id] == done.results[id])
    && (s.main.Completed? ==> s.results == done.results)
  }

  lemma NothingBreaks(c: Config, s: State)
    requires HasCause(s) && forall id :: !FailedAlone(s, id)
    ensures !s.main.Draining? && !s.main.Stopped? && forall id :: id in s.workers ==> !s.workers[id].pc.Broken?
  {
    forall id | id in s.workers ensures !s.workers[id].pc.Broken? {
      assert !FailedAlone(s, id) && s.workers[id].pc != Broken(Cancelled);
      FaultCases(s.workers[id].pc);
    }
  }

  lemma SameValues(c: Config, done: State, s: State)
    requires RefsAllOk(c) && AllDone(c, done) && AllTold(c, done) && AllTold(c, s) && s.results.Keys <= c.tasks.Keys
    requires forall id :: id in s.results && id in s.workers ==> s.workers[id].pc.Storing? || Ended(s.workers[id].pc)
    requires forall id :: id in s.workers ==> !s.workers[id].pc.Broken?
    ensures forall id :: id in s.results ==> id in done.results && s.results[id] == done.results[id]
  {
    forall id | id in s.results ensures id in done.results && s.results[id] == done.results[id] {
      SameInputs(c, done, s, id);
    }
  }

  lemma SameResults(c: Config, done: State, s: State)
    requires forall id :: id in s.results ==> id in done.results && s.results[id] == done.results[id]
    requires BatchOk(c, s) && StoresOk(c, s.workers, s.results) && done.results.Keys <= c.tasks.Keys
    ensures s.main.Completed? ==> s.results == done.results
  {
    if s.main.Completed? {
      CompletedLayers(c, s);
    }
  }

  /** A state to compare others with: every worker did what was foreseen, within the budget. */
  ghost predicate Reference(c: Config, done: State) {
    && AllDone(c, done) && AllTold(c, done) && AllForeseen(c, done) && BudgetOk(c, done.workers, done.spent)
    && done.results.Keys <= c.tasks.Keys
  }

  lemma ComparableMatch(c: Config, done: State, s: State)
    requires RefsAllOk(c) && Reference(c, done) && Comparable(c, s)
    ensures Matches(c, done, s)
  {
    NobodyFailsAlone(c, done, s);
    NothingBreaks(c, s);
    SameValues(c, done, s);
    SameResults(c, done, s);
  }

  /**
   If one undisturbed interleaving completes, then in no other does a worker fail, every value another
   stores is the same, and it too can only end by completing with the same results.
   */
  lemma ScheduleIndependence(c: Config, steps1: seq<Step>, done: State, steps2: seq<Step>, s: State)
    requires Valid(c) && Undisturbed(c, steps1) && Undisturbed(c, steps2)
    requires Exec(c, steps1) == Some(done) && done.main.Completed? && Exec(c, steps2) == Some(s)
    ensures Matches(c, done, s)
  {
    UndisturbedIsComparable(c, steps1, done);
    UndisturbedIsComparable(c, steps2, s);
    ValidIsSound(c);
    ValidRefs(c);
    CompletedIsDone(c, done);
    ComparableMatch(c, done, s);
  }

  /** Of two interleavings run to their end, both complete with the same results or both fail. */
  lemma AllOrNothing(c: Config, steps1: seq<Step>, s1: State, steps2: seq<Step>, s2: State)
    requires Valid(c) && Undisturbed(c, steps1) && Undisturbed(c, steps2)
    requires Exec(c, steps1) == Some(s1) && Over(s1) && Exec(c, steps2) == Some(s2) && Over(s2)
    ensures s1.main == s2.main
    ensures s1.main.Completed? ==> s1.results == s2.results
  {
    if s1.main.Completed? {
      ScheduleIndependence(c, steps1, s1, steps2, s2);
    } else if s2.main.Completed? {
      ScheduleIndependence(c, steps2, s2, steps1, s1);
    }
  }

  /** And no other interleaving is lost: however far it has come, it can be completed. */
  lemma EveryInterleavingCompletes(c: Config, steps1: seq<Step>, done: State, steps2: seq<Step>, s: State)
    returns (more: seq<Step>, end: State)
    requires Valid(c) && Undisturbed(c, steps1) && Undisturbed(c, steps2)
    requires Exec(c, steps1) == Some(done) && done.main.Completed? && Exec(c, steps2) == Some(s)
    ensures Undisturbed(c, steps2 + more) && Exec(c, steps2 + more) == Some(end)
    ensures end.main.Completed? && end.results == done.results
  {
    ExecShaped(c, steps2);
    more, end := EveryRunCanEnd(c, steps2, s);
    ScheduleIndependence(c, steps1, done, steps2 + more, end);
  }
}
