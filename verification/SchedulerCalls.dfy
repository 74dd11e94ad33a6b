/** What the progress callbacks cannot change, and which models one subtask tries in which order. */
module SchedulerCalls {
  import opened Json
  import opened Layers
  import opened Budgets
  import opened Tiers
  import opened Scheduler
  import opened WorkerInvariant
  import opened SchedulerInvariant
  import opened SchedulerRuns
  import opened SchedulerTheorems
  import opened SchedulerDeterminism
  import Sums

  // ---- Callbacks ----

  /** The same step, except perhaps for how a callback ended. */
  predicate SameStep(a: Step, b: Step) {
    a == b || (a.Deliver? && b.Deliver? && (a.callback.Cut? <==> b.callback.Cut?))
  }

  predicate SameSteps(a: seq<Step>, b: seq<Step>) {
    |a| == |b| && forall i :: 0 <= i < |a| ==> SameStep(a[i], b[i])
  }

  /** The same state, except perhaps for how callbacks ended. */
  predicate SameState(a: State, b: State) {
    b == a.(log := b.log) && LogNumbers(a.log) == LogNumbers(b.log)
  }

  lemma ResumesAlike(a: State, b: State, step: Step, other: Step)
    requires SameState(a, b) && SameStep(step, other)
    ensures Resumes(a, step) == Resumes(b, other) && (Enabled(a, step) <==> Enabled(b, other))
  {
  }

  lemma LogsAlike(a: seq<Delivery>, b: seq<Delivery>, x: Delivery, y: Delivery)
    requires LogNumbers(a) == LogNumbers(b) && x.seqNo == y.seqNo
    ensures LogNumbers(a + [x]) == LogNumbers(b + [y])
  {
    assert LogNumbers(a + [x]) == LogNumbers(a) + [x.seqNo];
    assert LogNumbers(b + [y]) == LogNumbers(b) + [y.seqNo];
  }

  lemma UnlockAlike(a: State, b: State, step: Step, other: Step)
    requires SameState(a, b) && SameStep(step, other) && Enabled(a, step) && Enabled(b, other)
    ensures SameState(Unlock(a, step), Unlock(b, other))
  {
    if step.Deliver? {
      LogsAlike(a.log, b.log, Delivery(a.queue[0].seqNo, step.callback), Delivery(b.queue[0].seqNo, other.callback));
    } else if a.queue != [] {
      LogsAlike(a.log, b.log, Delivery(a.queue[0].seqNo, Cut), Delivery(b.queue[0].seqNo, Cut));
    }
  }

  lemma CarryAlike(a: State, b: State, id: string, e: Effect)
    requires SameState(a, b)
    ensures SameState(Carry(a, id, e), Carry(b, id, e))
  {
  }

  lemma AdvanceAlike(c: Config, a: State, b: State)
    requires SameState(a, b)
    ensures SameState(Advance(c, a), Advance(c, b))
  {
    assert Regather(a) == Regather(b);
  }

  lemma StepAlike(c: Config, a: State, b: State, step: Step, other: Step)
    requires SameState(a, b) && SameStep(step, other) && Shaped(c, a) && Shaped(c, b) && Enabled(a, step)
    ensures Enabled(b, other) && SameState(Apply(c, a, step), Apply(c, b, other))
  {
    ResumesAlike(a, b, step, other);
    UnlockAlike(a, b, step, other);
    if Resumes(a, step).Some? {
      CarryAlike(Unlock(a, step), Unlock(b, other), Who(a, step), EffectOf(c, a, step));
    } else if step.NextBatch? {
      AdvanceAlike(c, a, b);
    }
  }

  /** A schedule stays possible when its callbacks end otherwise, and leads to the same state up to the log. */
  lemma {:induction false} CallbacksChangeNothing(c: Config, steps: seq<Step>, others: seq<Step>)
    requires Valid(c) && Exec(c, steps).Some? && SameSteps(steps, others)
    ensures Exec(c, others).Some? && SameState(Exec(c, steps).value, Exec(c, others).value)
  {
    if steps != [] {
      var n := |steps| - 1;
      CallbacksChangeNothing(c, steps[..n], others[..n]);
      ExecShaped(c, steps[..n]);
      ExecShaped(c, others[..n]);
      NextAlike(c, steps, others, Exec(c, steps[..n]).value, Exec(c, others[..n]).value);
    }
  }

  lemma NextAlike(c: Config, steps: seq<Step>, others: seq<Step>, a: State, b: State)
    requires steps != [] && SameSteps(steps, others) && SameState(a, b) && Shaped(c, a) && Shaped(c, b)
    requires Exec(c, steps[..|steps| - 1]) == Some(a) && Exec(c, others[..|others| - 1]) == Some(b) && Exec(c, steps).Some?
    ensures Exec(c, others).Some? && SameState(Exec(c, steps).value, Exec(c, others).value)
  {
    StepAlike(c, a, b, steps[|steps| - 1], others[|others| - 1]);
  }

  // ---- The order of attempts ----

  /** Attempts up to this number may have been recorded. */
  function Tried(w: Worker): nat {
    match w.pc
    case Idle => 0
    case Created => 0
    case Escalating => w.attempt
    case Queued => w.attempt
    case Announcing => w.attempt
    case _ => w.attempt + 1
  }

  predicate RecordFits(c: Config, workers: map<string, Worker>, r: Record) {
    && r.task in workers && r.task in c.routes && 1 <= r.attempt <= |c.routes[r.task]|
    && r.tier == c.routes[r.task][r.attempt - 1] && r.attempt <= Tried(workers[r.task])
  }

  /** The records of the workers: each on the tier of its attempt, the attempts of a task in order. */
  ghost predicate Climbs(c: Config, workers: map<string, Worker>, records: seq<Record>) {
    && |c.records| <= |records|
    && (forall i :: |c.records| <= i < |records| ==> RecordFits(c, workers, records[i]))
    && (forall i, j :: |c.records| <= i < j < |records| && records[i].task == records[j].task ==>
          records[i].attempt < records[j].attempt)
  }

  lemma ReactClimbs(c: Config, id: string, w: Worker, results: map<string, Json>, spent: Spent, trigger: Trigger)
    requires Steady(c, id, w, results, trigger)
    ensures var e := React(c, id, w, results, spent, trigger);
      && Tried(w) <= Tried(e.worker)
      && (e.records == [] || (e.records == [Record(c.routes[id][w.attempt], Work, id, w.attempt + 1)]
                              && Tried(w) <= w.attempt < |c.routes[id]| && w.attempt < Tried(e.worker)))
  {
  }

  lemma CarryClimbs(c: Config, s: State, id: string, e: Effect)
    requires Climbs(c, s.workers, s.records) && id in s.workers && Tried(s.workers[id]) <= Tried(e.worker)
    requires e.records == [] || (|e.records| == 1 && e.records[0].task == id
                                 && RecordFits(c, map[id := e.worker], e.records[0])
                                 && Tried(s.workers[id]) < e.records[0].attempt)
    ensures Climbs(c, s.workers[id := e.worker], s.records + e.records)
  {
    var records := s.records + e.records;
    forall i | |c.records| <= i < |records| ensures RecordFits(c, s.workers[id := e.worker], records[i]) {
      if i < |s.records| {
        assert RecordFits(c, s.workers, s.records[i]);
      }
    }
    forall i, j | |c.records| <= i < j < |records| && records[i].task == records[j].task
      ensures records[i].attempt < records[j].attempt
    {
      if j == |s.records| {
        assert RecordFits(c, s.workers, s.records[i]);
      }
    }
  }

  lemma LaunchClimbs(c: Config, s: State, ready: set<string>, batch: nat)
    requires Climbs(c, s.workers, s.records) && forall id :: id in ready && id in s.workers ==> s.workers[id].pc.Idle?
    ensures Climbs(c, Launch(s.workers, ready, batch), s.records)
  {
    forall i | |c.records| <= i < |s.records| ensures RecordFits(c, Launch(s.workers, ready, batch), s.records[i]) {
      assert RecordFits(c, s.workers, s.records[i]);
    }
  }

  lemma ResumedClimbs(c: Config, s: State, step: Step)
    requires Shaped(c, s) && Enabled(s, step) && Climbs(c, s.workers, s.records) && Resumes(s, step).Some?
    ensures Climbs(c, Apply(c, s, step).workers, Apply(c, s, step).records)
  {
    var (id, trigger) := Resumes(s, step).value;
    ReactClimbs(c, id, s.workers[id], s.results, s.spent, trigger);
    CarryClimbs(c, s, id, EffectOf(c, s, step));
  }

  lemma StepClimbs(c: Config, s: State, step: Step)
    requires Shaped(c, s) && Enabled(s, step) && Climbs(c, s.workers, s.records)
    requires PhaseOk(c, s.batch, s.active, s.pending, s.workers)
    ensures Climbs(c, Apply(c, s, step).workers, Apply(c, s, step).records)
  {
    if Resumes(s, step).Some? {
      ResumedClimbs(c, s, step);
    } else if step.NextBatch? {
      AdvanceFrame(c, s);
      LaunchClimbs(c, s, ReadyIn(c, s.(results := Regather(s)), s.pending - s.active), s.batch + 1);
    } else {
      AsideFrame(c, s, step);
    }
  }

  lemma {:induction false} ExecClimbs(c: Config, steps: seq<Step>)
    requires Valid(c) && Exec(c, steps).Some?
    ensures Climbs(c, Exec(c, steps).value.workers, Exec(c, steps).value.records)
  {
    if steps != [] {
      var n := |steps| - 1;
      ExecClimbs(c, steps[..n]);
      ExecPhase(c, steps[..n]);
      StepClimbs(c, Exec(c, steps[..n]).value, steps[n]);
    }
  }

  /** A later call for the same subtask never goes to a smaller model. */
  lemma SubtaskClimbsLadder(c: Config, steps: seq<Step>, s: State, i: nat, j: nat)
    requires Valid(c) && Exec(c, steps) == Some(s) && |c.records| <= i < j < |s.records|
    requires s.records[i].task == s.records[j].task
    ensures s.records[i].tier in c.tiers && s.records[j].tier in c.tiers
    ensures IndexOf(c.tiers, s.records[i].tier) <= IndexOf(c.tiers, s.records[j].tier)
  {
    ExecClimbs(c, steps);
    var id, a, b := PlacesOnRoute(c, s.workers, s.records, i, j);
    RouteClimbs(c, id, a, b);
  }

  /** Where on the task's route two of its calls went. */
  lemma PlacesOnRoute(c: Config, workers: map<string, Worker>, records: seq<Record>, i: nat, j: nat)
    returns (id: string, a: nat, b: nat)
    requires Climbs(c, workers, records) && |c.records| <= i < j < |records| && records[i].task == records[j].task
    ensures id in c.routes && a < b < |c.routes[id]|
    ensures records[i].tier == c.routes[id][a] && records[j].tier == c.routes[id][b]
  {
    assert RecordFits(c, workers, records[i]) && RecordFits(c, workers, records[j]);
    id, a, b := records[i].task, records[i].attempt - 1, records[j].attempt - 1;
  }

  lemma RouteClimbs(c: Config, id: string, a: nat, b: nat)
    requires Valid(c) && id in c.routes && a < b < |c.routes[id]|
    ensures c.routes[id][a] in c.tiers && c.routes[id][b] in c.tiers
    ensures IndexOf(c.tiers, c.routes[id][a]) <= IndexOf(c.tiers, c.routes[id][b])
  {
    assert ValidTask(c, id, c.tasks[id]);
    assert c.routes[id] == TiersFor(c, id);
    WorkerTiersClimb(c.tasks[id].preferredTier, c.tiers, c.workerAttempts, c.escalateFailed);
  }

  /** This attempt goes to another tier than the one before, or, if it is the first, than the task prefers. */
  predicate Changes(c: Config, id: string, k: nat)
    requires id in c.tasks && id in c.routes && k < |c.routes[id]|
  {
    c.routes[id][k] != if k == 0 then c.tasks[id].preferredTier else c.routes[id][k - 1]
  }

  /** The worker enters an attempt: it queues for a slot or, in the cloud, announces the call. */
  predicate Enters(w: Worker, after: Worker) {
    after.pc.Queued? || (after.pc.Announcing? && !w.pc.Queued?)
  }

  /** An escalation is announced, and delivered, before the attempt on the other tier begins, and nothing else is. */
  lemma EscalationIsAnnounced(c: Config, id: string, w: Worker, results: map<string, Json>, spent: Spent, trigger: Trigger)
    requires Steady(c, id, w, results, trigger)
    ensures var e := React(c, id, w, results, spent, trigger);
      && (Enters(w, e.worker) ==> e.worker.attempt < |c.routes[id]| && (Changes(c, id, e.worker.attempt) ==> w.pc.Escalating?))
      && (e.worker.pc.Escalating? ==> e.posts && e.worker.attempt < |c.routes[id]| && Changes(c, id, e.worker.attempt))
  {
  }

  // ---- Which calls are made ----

  /** The calls made for one task, in order. */
  function CallsFor(records: seq<Record>, id: string): seq<Record> {
    if records == [] then []
    else
      var n := |records| - 1;
      CallsFor(records[..n], id) + if records[n].task == id then [records[n]] else []
  }

  lemma CallsForNext(records: seq<Record>, r: Record, id: string)
    ensures CallsFor(records + [r], id) == CallsFor(records, id) + if r.task == id then [r] else []
  {
    assert (records + [r])[..|records|] == records;
  }

  /** The first n attempts at a task, each on its own tier. */
  function Attempts(c: Config, id: string, n: nat): (calls: seq<Record>)
    requires id in c.routes && n <= |c.routes[id]|
  {
    seq(n, a requires 0 <= a < n => Record(c.routes[id][a], Work, id, a + 1))
  }

  /** The number of calls made is the number of the attempt, or one more once its call is out. */
  predicate InStep(w: Worker) {
    match w.pc
    case Idle => w.made == 0
    case Created => w.made == 0
    case Escalating => w.made == w.attempt
    case Queued => w.made == w.attempt
    case Announcing => w.made == w.attempt
    case Done(_) => true
    case Broken(_) => true
    case _ => w.made == w.attempt + 1
  }

  /** A worker gives up only after the last attempt on its route. */
  predicate TriedAll(c: Config, id: string, w: Worker)
    requires id in c.routes
  {
    w.pc == Broken(Exhausted) ==> w.made == |c.routes[id]|
  }

  lemma ReactInStep(c: Config, id: string, w: Worker, results: map<string, Json>, spent: Spent, trigger: Trigger)
    requires Steady(c, id, w, results, trigger) && InStep(w) && w.made <= |c.routes[id]|
    ensures var e := React(c, id, w, results, spent, trigger);
      InStep(e.worker) && CallsOnce(c, id, w, e) && TriedAll(c, id, e.worker)
  {
  }

  /** One worker's calls are exactly its attempts so far. */
  ghost predicate Called(c: Config, made: seq<Record>, id: string, w: Worker) {
    && id in c.routes && InStep(w) && w.made <= |c.routes[id]| && TriedAll(c, id, w)
    && CallsFor(made, id) == Attempts(c, id, w.made)
  }

  ghost predicate AllCalled(c: Config, workers: map<string, Worker>, made: seq<Record>) {
    && (forall id :: id in workers ==> Called(c, made, id, workers[id]))
    && TasksOnly(made, workers.Keys)
  }

  /** The records are what the run had before, then the workers' own calls. */
  ghost predicate CallsExact(c: Config, s: State) {
    c.records <= s.records && AllCalled(c, s.workers, s.records[|c.records|..])
  }

  lemma AttemptsNext(c: Config, id: string, n: nat)
    requires id in c.routes && n < |c.routes[id]|
    ensures Attempts(c, id, n + 1) == Attempts(c, id, n) + [Record(c.routes[id][n], Work, id, n + 1)]
  {
  }

  lemma CalledNext(c: Config, workers: map<string, Worker>, made: seq<Record>, id: string, e: Effect)
    requires AllCalled(c, workers, made) && id in workers && InStep(e.worker) && CallsOnce(c, id, workers[id], e)
    requires id in c.routes && TriedAll(c, id, e.worker)
    ensures AllCalled(c, workers[id := e.worker], made + e.records)
  {
    OwnCalled(c, made, id, workers[id], e);
    forall other | other in workers && other != id ensures Called(c, made + e.records, other, workers[other]) {
      OtherCalled(c, made, e.records, other, workers[other]);
    }
  }

  /** A resumption makes no call, or the call of the next attempt. */
  ghost predicate CallsOnce(c: Config, id: string, w: Worker, e: Effect) {
    || (e.records == [] && e.worker.made == w.made)
    || (id in c.routes && w.made < |c.routes[id]| && e.worker.made == w.made + 1
        && e.records == [Record(c.routes[id][w.made], Work, id, w.made + 1)])
  }

  lemma OwnCalled(c: Config, made: seq<Record>, id: string, w: Worker, e: Effect)
    requires Called(c, made, id, w) && InStep(e.worker) && CallsOnce(c, id, w, e) && TriedAll(c, id, e.worker)
    ensures Called(c, made + e.records, id, e.worker)
  {
    if e.records == [] {
      assert made + e.records == made;
    } else {
      AttemptsNext(c, id, w.made);
      CallsForNext(made, e.records[0], id);
    }
  }

  lemma OtherCalled(c: Config, made: seq<Record>, more: seq<Record>, id: string, w: Worker)
    requires Called(c, made, id, w) && (more == [] || (|more| == 1 && more[0].task != id))
    ensures Called(c, made + more, id, w)
  {
    if more == [] {
      assert made + more == made;
    } else {
      assert more == [more[0]];
      CallsForNext(made, more[0], id);
    }
  }

  lemma ResumedCalled(c: Config, s: State, step: Step)
    requires Shaped(c, s) && Enabled(s, step) && Resumes(s, step).Some? && CallsExact(c, s)
    ensures CallsExact(c, Apply(c, s, step))
  {
    var (id, trigger) := Resumes(s, step).value;
    EffectCalled(c, s, id, trigger);
    CarryRecords(Unlock(s, step), id, EffectOf(c, s, step));
    TailGrows(c.records, s.records, EffectOf(c, s, step).records);
  }

  lemma EffectCalled(c: Config, s: State, id: string, trigger: Trigger)
    requires id in s.workers && Steady(c, id, s.workers[id], s.results, trigger) && CallsExact(c, s)
    ensures var e := React(c, id, s.workers[id], s.results, s.spent, trigger);
      AllCalled(c, s.workers[id := e.worker], s.records[|c.records|..] + e.records)
  {
    assert Called(c, s.records[|c.records|..], id, s.workers[id]);
    ReactInStep(c, id, s.workers[id], s.results, s.spent, trigger);
    CalledNext(c, s.workers, s.records[|c.records|..], id, React(c, id, s.workers[id], s.results, s.spent, trigger));
  }

  lemma CarryRecords(s: State, id: string, e: Effect)
    ensures Carry(s, id, e).records == s.records + e.records && Carry(s, id, e).workers == s.workers[id := e.worker]
  {
  }

  lemma TailGrows(before: seq<Record>, records: seq<Record>, more: seq<Record>)
    requires before <= records
    ensures before <= records + more && (records + more)[|before|..] == records[|before|..] + more
  {
  }

  lemma LaunchCalled(c: Config, workers: map<string, Worker>, made: seq<Record>, ready: set<string>, batch: nat)
    requires AllCalled(c, workers, made) && forall id :: id in ready && id in workers ==> workers[id].pc.Idle?
    ensures AllCalled(c, Launch(workers, ready, batch), made)
  {
    forall id | id in workers ensures Called(c, made, id, Launch(workers, ready, batch)[id]) {
      assert Called(c, made, id, workers[id]);
    }
  }

  lemma StepCalled(c: Config, s: State, step: Step)
    requires Shaped(c, s) && Enabled(s, step) && CallsExact(c, s)
    requires PhaseOk(c, s.batch, s.active, s.pending, s.workers)
    ensures CallsExact(c, Apply(c, s, step))
  {
    if Resumes(s, step).Some? {
      ResumedCalled(c, s, step);
    } else if step.NextBatch? {
      AdvanceFrame(c, s);
      LaunchCalled(c, s.workers, s.records[|c.records|..], ReadyIn(c, s.(results := Regather(s)), s.pending - s.active), s.batch + 1);
    } else {
      AsideFrame(c, s, step);
    }
  }

  /** In every reachable state the calls for a task are its attempts in order, as many as its worker has made. */
  lemma {:induction false} CallsAreAttempts(c: Config, steps: seq<Step>)
    requires Valid(c) && Exec(c, steps).Some?
    ensures CallsExact(c, Exec(c, steps).value)
  {
    if steps == [] {
      InitCalled(c);
    } else {
      var n := |steps| - 1;
      CallsAreAttempts(c, steps[..n]);
      ExecPhase(c, steps[..n]);
      NextCalled(c, steps, Exec(c, steps[..n]).value);
    }
  }

  lemma InitCalled(c: Config)
    requires c.routes.Keys == c.tasks.Keys
    ensures CallsExact(c, Init(c))
  {
    assert Init(c).records[|c.records|..] == [];
  }

  lemma NextCalled(c: Config, steps: seq<Step>, s: State)
    requires steps != [] && Exec(c, steps[..|steps| - 1]) == Some(s) && Exec(c, steps).Some? && Shaped(c, s)
    requires PhaseOk(c, s.batch, s.active, s.pending, s.workers) && CallsExact(c, s)
    ensures CallsExact(c, Exec(c, steps).value)
  {
    StepCalled(c, s, steps[|steps| - 1]);
  }

  lemma ReachableCalls(c: Config, s: State)
    requires Valid(c) && Reachable(c, s)
    ensures CallsExact(c, s)
  {
    var steps :| Exec(c, steps) == Some(s);
    CallsAreAttempts(c, steps);
  }

  /** The place of the task's preferred tier. */
  function Base(c: Config, id: string): (base: nat)
    requires id in c.tasks && c.tasks[id].preferredTier in c.tiers
    ensures base < |c.tiers| && c.tiers[base] == c.tasks[id].preferredTier
  {
    IndexOf(c.tiers, c.tasks[id].preferredTier)
  }

  function TiersOf(calls: seq<Record>): (tiers: seq<string>)
    ensures |tiers| == |calls| && forall i :: 0 <= i < |calls| ==> tiers[i] == calls[i].tier
  {
    seq(|calls|, i requires 0 <= i < |calls| => calls[i].tier)
  }

  lemma RouteInTurn(c: Config, id: string)
    requires Valid(c) && id in c.tasks
    ensures c.tasks[id].preferredTier in c.tiers && id in c.routes && c.routes[id] != []
    ensures TriesInTurn(c.routes[id], c.tiers, Base(c, id), c.workerAttempts, c.escalateFailed)
    ensures c.escalateFailed ==> c.routes[id][|c.routes[id]| - 1] == CLOUD
  {
    assert ValidTask(c, id, c.tasks[id]);
    assert c.routes[id] == TiersFor(c, id);
    WorkerTiersInTurn(c.tiers, Base(c, id), c.workerAttempts, c.escalateFailed);
  }

  /**
   A worker that gave up has called its own tier W times and, if failed subtasks escalate, then every larger tier, the
   cloud last; or the cloud once if that is its own tier.
   */
  lemma GaveUpAfterAll(c: Config, s: State, id: string)
    requires Valid(c) && Reachable(c, s) && id in c.tasks && id in s.workers && s.workers[id].pc == Broken(Exhausted)
    ensures c.tasks[id].preferredTier in c.tiers && c.records <= s.records
    ensures var calls := CallsFor(s.records[|c.records|..], id);
      && TriesInTurn(TiersOf(calls), c.tiers, Base(c, id), c.workerAttempts, c.escalateFailed)
      && (c.escalateFailed ==> calls != [] && calls[|calls| - 1].tier == CLOUD)
  {
    ReachableCalls(c, s);
    RouteInTurn(c, id);
    WholeRoute(c, s, id);
  }

  lemma WholeRoute(c: Config, s: State, id: string)
    requires CallsExact(c, s) && id in s.workers && s.workers[id].pc == Broken(Exhausted)
    ensures id in c.routes && TiersOf(CallsFor(s.records[|c.records|..], id)) == c.routes[id]
  {
    assert Called(c, s.records[|c.records|..], id, s.workers[id]);
    assert TiersOf(Attempts(c, id, |c.routes[id]|)) == c.routes[id];
  }

  lemma {:induction false} CountedByTask(records: seq<Record>, r: Record)
    ensures multiset(records)[r] == multiset(CallsFor(records, r.task))[r]
  {
    if records != [] {
      var n := |records| - 1;
      CountedByTask(records[..n], r);
      assert records == records[..n] + [records[n]];
    }
  }

  lemma {:induction false} NoCallsFor(records: seq<Record>, id: string)
    requires forall i :: 0 <= i < |records| ==> records[i].task != id
    ensures CallsFor(records, id) == []
  {
    if records != [] {
      NoCallsFor(records[..|records| - 1], id);
    }
  }

  ghost predicate TasksOnly(records: seq<Record>, ids: set<string>) {
    forall i :: 0 <= i < |records| ==> records[i].task in ids
  }

  lemma SameCounts(ids: set<string>, a: seq<Record>, b: seq<Record>)
    requires TasksOnly(a, ids) && TasksOnly(b, ids) && forall id :: id in ids ==> CallsFor(a, id) == CallsFor(b, id)
    ensures multiset(a) == multiset(b)
  {
    forall r: Record ensures multiset(a)[r] == multiset(b)[r] {
      SameCount(ids, a, b, r);
    }
    SameMultisets(multiset(a), multiset(b));
  }

  lemma SameMultisets(a: multiset<Record>, b: multiset<Record>)
    requires forall r: Record :: a[r] == b[r]
    ensures a == b
  {
  }

  lemma SameCount(ids: set<string>, a: seq<Record>, b: seq<Record>, r: Record)
    requires TasksOnly(a, ids) && TasksOnly(b, ids)
    requires r.task in ids ==> CallsFor(a, r.task) == CallsFor(b, r.task)
    ensures multiset(a)[r] == multiset(b)[r]
  {
    CountedByTask(a, r);
    CountedByTask(b, r);
    if r.task !in ids {
      NoCallsFor(a, r.task);
      NoCallsFor(b, r.task);
    }
  }

  lemma DoneAlike(c: Config, s1: State, s2: State)
    requires RefsAllOk(c) && AllDone(c, s1) && AllDone(c, s2) && AllTold(c, s1) && AllTold(c, s2)
    requires AllForeseen(c, s1) && AllForeseen(c, s2)
    ensures forall id :: id in c.tasks ==>
      s1.workers[id].made == s2.workers[id].made && s1.workers[id].charged == s2.workers[id].charged
  {
    forall id | id in c.tasks
      ensures s1.workers[id].made == s2.workers[id].made && s1.workers[id].charged == s2.workers[id].charged
    {
      assert Foreseen(c, s1.results, id, s1.workers[id]) && Foreseen(c, s2.results, id, s2.workers[id]);
      SameNumberOfCalls(c, s1, s2, id);
      SameNumberOfCalls(c, s2, s1, id);
    }
  }

  /** As many charges, as much spent. */
  lemma SameSpent(c: Config, s1: State, s2: State)
    requires s1.workers.Keys == s2.workers.Keys && BudgetOk(c, s1.workers, s1.spent) && BudgetOk(c, s2.workers, s2.spent)
    requires forall id :: id in s1.workers ==> s1.workers[id].charged == s2.workers[id].charged
    ensures s1.spent == s2.spent
  {
    Sums.SumAgree(s1.workers.Keys, Charges(s1.workers), Charges(s2.workers));
  }

  lemma AlikeCalls(c: Config, s1: State, s2: State)
    requires CallsExact(c, s1) && CallsExact(c, s2) && s1.workers.Keys == s2.workers.Keys == c.tasks.Keys
    requires forall id :: id in c.tasks ==> s1.workers[id].made == s2.workers[id].made
    ensures forall id :: id in c.tasks ==> CallsFor(s1.records[|c.records|..], id) == CallsFor(s2.records[|c.records|..], id)
    ensures multiset(s1.records[|c.records|..]) == multiset(s2.records[|c.records|..])
  {
    var a, b := s1.records[|c.records|..], s2.records[|c.records|..];
    forall id | id in c.tasks ensures CallsFor(a, id) == CallsFor(b, id) {
      assert Called(c, a, id, s1.workers[id]) && Called(c, b, id, s2.workers[id]);
    }
    SameCounts(c.tasks.Keys, a, b);
  }

  /**
   Two undisturbed runs that complete make the same calls, for each task and in all, and store the same results:
   however the callbacks end, however long they hold the others up and whatever order that puts the workers in.
   */
  lemma SameCallsSameResults(c: Config, steps1: seq<Step>, s1: State, steps2: seq<Step>, s2: State)
    requires Valid(c) && Undisturbed(c, steps1) && Undisturbed(c, steps2)
    requires Exec(c, steps1) == Some(s1) && Exec(c, steps2) == Some(s2) && s1.main.Completed? && s2.main.Completed?
    ensures c.records <= s1.records && c.records <= s2.records
    ensures forall id :: id in c.tasks ==> CallsFor(s1.records[|c.records|..], id) == CallsFor(s2.records[|c.records|..], id)
    ensures multiset(s1.records[|c.records|..]) == multiset(s2.records[|c.records|..])
    ensures s1.results == s2.results && s1.spent == s2.spent
  {
    CompletedAlike(c, steps1, s1, steps2, s2);
    CallsAreAttempts(c, steps1);
    CallsAreAttempts(c, steps2);
    AlikeCalls(c, s1, s2);
    ScheduleIndependence(c, steps1, s1, steps2, s2);
  }

  lemma CompletedAlike(c: Config, steps1: seq<Step>, s1: State, steps2: seq<Step>, s2: State)
    requires Valid(c) && Undisturbed(c, steps1) && Undisturbed(c, steps2)
    requires Exec(c, steps1) == Some(s1) && Exec(c, steps2) == Some(s2) && s1.main.Completed? && s2.main.Completed?
    ensures s1.workers.Keys == s2.workers.Keys == c.tasks.Keys && s1.spent == s2.spent
    ensures forall id :: id in c.tasks ==> s1.workers[id].made == s2.workers[id].made
  {
    UndisturbedIsComparable(c, steps1, s1);
    UndisturbedIsComparable(c, steps2, s2);
    ValidIsSound(c);
    ValidRefs(c);
    ComparableAlike(c, s1, s2);
  }

  lemma ComparableAlike(c: Config, s1: State, s2: State)
    requires RefsAllOk(c) && Closed(GraphIn(c)) && Comparable(c, s1) && Comparable(c, s2)
    requires s1.main.Completed? && s2.main.Completed?
    ensures s1.workers.Keys == s2.workers.Keys == c.tasks.Keys && s1.spent == s2.spent
    ensures forall id :: id in c.tasks ==> s1.workers[id].made == s2.workers[id].made
  {
    CompletedIsDone(c, s1);
    CompletedIsDone(c, s2);
    DoneAlike(c, s1, s2);
    SameSpent(c, s1, s2);
  }
}
