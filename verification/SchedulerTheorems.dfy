/** What every run of the scheduler guarantees, whatever the interleaving. */
module SchedulerTheorems {
  import opened Json
  import opened Layers
  import opened Plans
  import opened Budgets
  import opened Tiers
  import opened Scheduler
  import opened WorkerInvariant
  import opened SchedulerInvariant
  import opened SchedulerRuns
  import Sums

  // ---- Runs ----

  /** The state these steps lead to, if each was enabled in turn. */
  ghost function Exec(c: Config, steps: seq<Step>): Option<State> {
    if steps == [] then Some(Init(c))
    else
      var n := |steps| - 1;
      match Exec(c, steps[..n])
      case None => None
      case Some(s) => if Shaped(c, s) && Enabled(s, steps[n]) then Some(Apply(c, s, steps[n])) else None
  }

  /** Some interleaving leads to this state. */
  ghost predicate Reachable(c: Config, s: State) {
    exists steps :: Exec(c, steps) == Some(s)
  }

  lemma {:induction false} ExecInv(c: Config, steps: seq<Step>)
    requires Valid(c) && Exec(c, steps).Some?
    ensures Inv(c, Exec(c, steps).value) && Shaped(c, Exec(c, steps).value)
  {
    if steps == [] {
      InitInv(c);
    } else {
      var n := |steps| - 1;
      ExecInv(c, steps[..n]);
      StepKeepsInv(c, Exec(c, steps[..n]).value, steps[n]);
    }
    InvShaped(c, Exec(c, steps).value);
  }

  lemma ExecShaped(c: Config, steps: seq<Step>)
    requires Valid(c) && Exec(c, steps).Some?
    ensures Shaped(c, Exec(c, steps).value)
  {
    ExecInv(c, steps);
  }

  /** What a step needs of the state it starts from, without the rest of the invariant. */
  lemma ExecPhase(c: Config, steps: seq<Step>)
    requires Valid(c) && Exec(c, steps).Some?
    ensures var s := Exec(c, steps).value;
      Shaped(c, s) && PhaseOk(c, s.batch, s.active, s.pending, s.workers)
  {
    ExecInv(c, steps);
  }

  lemma ReachableInv(c: Config, s: State)
    requires Valid(c) && Reachable(c, s)
    ensures Inv(c, s) && Shaped(c, s)
  {
    var steps :| Exec(c, steps) == Some(s);
    ExecInv(c, steps);
  }

  lemma ExecAppend(c: Config, steps: seq<Step>, s: State, step: Step)
    requires Exec(c, steps) == Some(s) && Shaped(c, s) && Enabled(s, step)
    ensures Exec(c, steps + [step]) == Some(Apply(c, s, step))
  {
    assert (steps + [step])[..|steps|] == steps;
  }

  /** The successor of a reachable state is reachable. */
  lemma ReachableStep(c: Config, s: State, step: Step)
    requires Reachable(c, s) && Shaped(c, s) && Enabled(s, step)
    ensures Reachable(c, Apply(c, s, step))
  {
    var steps :| Exec(c, steps) == Some(s);
    ExecAppend(c, steps, s, step);
  }

  // ---- Undisturbed runs ----

  function AnswerTo(c: Config, id: string, w: Worker): Outcome
    requires id in c.tasks && id in c.routes && w.attempt < |c.routes[id]|
  {
    c.provider(c.routes[id][w.attempt], Payload(c.tasks[id], w.inputs, w.attempt + 1, w.errors))
  }

  /** The step is no interruption, and a reply is what the provider answers to that call. */
  predicate Faithful(c: Config, s: State, step: Step) {
    && !step.Interrupt?
    && (step.Reply? ==>
          && step.id in c.tasks && step.id in c.routes && step.id in s.workers
          && s.workers[step.id].attempt < |c.routes[step.id]|
          && step.outcome == AnswerTo(c, step.id, s.workers[step.id]))
  }

  /** Replies depend only on tier and payload, and nobody interrupts the run. */
  ghost predicate Undisturbed(c: Config, steps: seq<Step>) {
    steps == []
    || (var n := |steps| - 1;
        Undisturbed(c, steps[..n]) && Exec(c, steps[..n]).Some? && Faithful(c, Exec(c, steps[..n]).value, steps[n]))
  }

  // ---- Results ----

  lemma LastStepGrows(c: Config, steps: seq<Step>)
    requires Valid(c) && Exec(c, steps).Some? && steps != []
    ensures var before := Exec(c, steps[..|steps| - 1]);
      before.Some? && Extends(before.value.results, Exec(c, steps).value.results)
  {
    var n := |steps| - 1;
    ExecInv(c, steps[..n]);
    StepKeepsInv(c, Exec(c, steps[..n]).value, steps[n]);
  }

  lemma ExtendsFurther(a: map<string, Json>, b: map<string, Json>, d: map<string, Json>)
    requires Extends(a, b) && Extends(b, d)
    ensures Extends(a, d)
  {
  }

  /** Nothing a run has stored is ever changed or removed by what the run does later. */
  lemma {:induction false} ResultsOnlyGrow(c: Config, earlier: seq<Step>, steps: seq<Step>)
    requires Valid(c) && Exec(c, steps).Some? && earlier <= steps
    ensures Exec(c, earlier).Some?
    ensures Extends(Exec(c, earlier).value.results, Exec(c, steps).value.results)
    decreases |steps|
  {
    if earlier != steps {
      var n := |steps| - 1;
      LastStepGrows(c, steps);
      ResultsOnlyGrow(c, earlier, steps[..n]);
      ExtendsFurther(Exec(c, earlier).value.results, Exec(c, steps[..n]).value.results, Exec(c, steps).value.results);
    }
  }

  /** The stored results are closed under dependency, and each passed its checks on its dependencies' values. */
  ghost predicate StoreSound(c: Config, results: map<string, Json>) {
    results.Keys <= c.tasks.Keys
    && forall id :: id in results ==> Deps(c.tasks[id]) <= results.Keys && Checked(c, results, id)
  }

  lemma WorkersStoreSound(c: Config, s: State)
    requires WorkersOk(c, s.workers, s.results)
    ensures StoreSound(c, s.results)
  {
    forall id | id in s.results ensures Deps(c.tasks[id]) <= s.results.Keys && Checked(c, s.results, id) {
      assert WorkerOk(c, s.results, id, s.workers[id]);
    }
  }

  /** In every reachable state, also after a failure or a cancellation. */
  lemma StoredResultsAreSound(c: Config, s: State)
    requires Valid(c) && Reachable(c, s)
    ensures StoreSound(c, s.results)
  {
    ReachableInv(c, s);
    WorkersStoreSound(c, s);
  }

  predicate Started(s: State, id: string) {
    id in s.workers && !s.workers[id].pc.Idle?
  }

  predicate Finished(s: State, id: string) {
    id in s.workers && s.workers[id].pc.Done?
  }

  lemma StartedDepsAreFinished(c: Config, s: State, id: string, d: string)
    requires BatchOk(c, s) && Started(s, id) && id in c.tasks && d in GraphIn(c)[id]
    ensures Finished(s, d)
  {
    var rounds := Rounds(c, s.workers, s.pending);
    if id in s.active {
      assert id in Ready(GraphIn(c), rounds.Keys);
    } else {
      assert id in rounds;
    }
    assert d in rounds;
  }

  /** Whatever a started task depends on has finished. */
  ghost predicate DepsFinished(c: Config, s: State) {
    forall id, d :: Started(s, id) && id in c.tasks && d in GraphIn(c)[id] ==> Finished(s, d)
  }

  lemma StartedDepsFinished(c: Config, s: State)
    requires BatchOk(c, s)
    ensures DepsFinished(c, s)
  {
    forall id, d | Started(s, id) && id in c.tasks && d in GraphIn(c)[id] ensures Finished(s, d) {
      StartedDepsAreFinished(c, s, id, d);
    }
  }

  lemma {:induction false} AncestorsAreFinished(c: Config, s: State, path: seq<string>, k: nat)
    requires DepsFinished(c, s) && IsPath(GraphIn(c), path) && k + 1 < |path| && Started(s, path[|path| - 1])
    ensures Finished(s, path[k])
    decreases |path|
  {
    var n := |path| - 1;
    assert path[n - 1] in GraphIn(c)[path[n]];
    assert Finished(s, path[n - 1]);
    if k + 1 < n {
      PathSlice(GraphIn(c), path, 0, n);
      assert path[..n] == path[0..n];
      AncestorsAreFinished(c, s, path[..n], k);
    }
  }

  /**
   A task starts only when everything it depends on, directly or through others, has finished; so
   nothing that depends on a failed or cancelled task ever starts.
   */
  lemma NothingStartsAfterFailure(c: Config, s: State, path: seq<string>, k: nat)
    requires Valid(c) && Reachable(c, s)
    requires IsPath(GraphIn(c), path) && k + 1 < |path| && Started(s, path[|path| - 1])
    ensures Finished(s, path[k])
  {
    ReachableInv(c, s);
    StartedDepsFinished(c, s);
    AncestorsAreFinished(c, s, path, k);
  }

  // ---- After a failure ----

  /** The two states agree on everything stored, called and charged, and on which tasks were ever started. */
  ghost predicate SameWork(a: State, b: State) {
    && a.results == b.results && a.records == b.records && a.spent == b.spent && a.workers.Keys == b.workers.Keys
    && forall id :: id in a.workers && a.workers[id].pc.Idle? ==> b.workers[id].pc.Idle?
  }

  lemma DrainingStep(c: Config, s: State, step: Step)
    requires Shaped(c, s) && Enabled(s, step) && s.main.Draining?
    ensures SameWork(s, Apply(c, s, step)) && (Apply(c, s, step).main.Draining? || Apply(c, s, step).main.Stopped?)
  {
  }

  /**
   Once a failure or an interruption has been noticed, no call is made, nothing is stored or charged and no task is started
   any more; the run can only be cleared up and stop.
   */
  lemma {:induction false} NothingAfterNotice(c: Config, earlier: seq<Step>, steps: seq<Step>)
    requires Valid(c) && Exec(c, steps).Some? && earlier <= steps
    requires Exec(c, earlier).Some? && (Exec(c, earlier).value.main.Draining? || Exec(c, earlier).value.main.Stopped?)
    ensures SameWork(Exec(c, earlier).value, Exec(c, steps).value)
    ensures Exec(c, steps).value.main.Draining? || Exec(c, steps).value.main.Stopped?
    decreases |steps|
  {
    if earlier != steps {
      var n := |steps| - 1;
      NothingAfterNotice(c, earlier, steps[..n]);
      ExecShaped(c, steps[..n]);
      NoticedNext(c, steps, Exec(c, steps[..n]).value);
    }
  }

  lemma NoticedNext(c: Config, steps: seq<Step>, s: State)
    requires steps != [] && Exec(c, steps[..|steps| - 1]) == Some(s) && Exec(c, steps).Some? && Shaped(c, s)
    requires s.main.Draining? || s.main.Stopped?
    ensures SameWork(s, Exec(c, steps).value)
    ensures Exec(c, steps).value.main.Draining? || Exec(c, steps).value.main.Stopped?
  {
    DrainingStep(c, s, steps[|steps| - 1]);
  }

  // ---- Layers ----

  lemma CompletedLayers(c: Config, s: State)
    requires BatchOk(c, s) && StoresOk(c, s.workers, s.results) && s.main.Completed?
    ensures IsLayering(GraphIn(c), Rounds(c, s.workers, {})) && s.results.Keys == c.tasks.Keys
  {
    PeeledAll(GraphIn(c), Rounds(c, s.workers, s.pending), s.batch);
    forall id | id in c.tasks ensures id in s.results {
      assert s.workers[id].pc.Done?;
    }
  }

  /** A completed run has stored every result, and the batch that ran a task is the task's layer. */
  lemma BatchesAreLayers(c: Config, s: State)
    requires Valid(c) && Reachable(c, s) && s.main.Completed?
    ensures IsLayering(GraphIn(c), Rounds(c, s.workers, {})) && s.results.Keys == c.tasks.Keys
  {
    ReachableInv(c, s);
    WorkersStore(c, s.workers, s.results);
    CompletedLayers(c, s);
  }

  lemma FewBatches(c: Config, s: State)
    requires BatchOk(c, s)
    ensures s.batch <= |c.tasks.Keys|
  {
    assert GraphIn(c).Keys == c.tasks.Keys;
    if s.active != {} {
      var x :| x in s.active;
      SubsetSize({x}, s.pending);
    }
  }

  lemma NeverWithoutTask(c: Config, s: State)
    requires SoundGraph(c) && StoresOk(c, s.workers, s.results) && BatchOk(c, s) && s.main.Running?
    requires forall id :: id in s.active ==> s.workers[id].pc.Done?
    ensures !Advance(c, s).main.Stopped?
  {
    NextBatchKeepsBatch(c, s);
  }

  /** There are never more batches than tasks, and a batch is never empty while tasks remain. */
  lemma BatchesAreFew(c: Config, s: State)
    requires Valid(c) && Reachable(c, s)
    ensures s.batch <= |c.tasks.Keys|
    ensures Enabled(s, NextBatch) ==> !Advance(c, s).main.Stopped?
  {
    ReachableInv(c, s);
    FewBatches(c, s);
    ValidIsSound(c);
    WorkersStore(c, s.workers, s.results);
    NextBatchNeverStops(c, s);
  }

  lemma NextBatchNeverStops(c: Config, s: State)
    requires SoundGraph(c) && StoresOk(c, s.workers, s.results) && BatchOk(c, s) && s.active <= s.workers.Keys
    ensures Enabled(s, NextBatch) ==> !Advance(c, s).main.Stopped?
  {
    if Enabled(s, NextBatch) {
      GatherReturned(s);
      NeverWithoutTask(c, s);
    }
  }

  lemma GatherReturned(s: State)
    requires Enabled(s, NextBatch) && s.active <= s.workers.Keys
    ensures s.main.Running? && forall id :: id in s.active ==> s.workers[id].pc.Done?
  {
  }

  // ---- Slots, events, budget ----

  lemma SlotsLimited(c: Config, s: State)
    requires s.workers.Keys == c.tasks.Keys == c.routes.Keys && SlotsOk(c, s.workers, s.free)
    ensures |Holders(c, s.workers)| <= c.limits.localConcurrency
  {
  }

  /** No more workers than the configured number ever hold a local slot. */
  lemma SlotLimit(c: Config, s: State)
    requires Valid(c) && Reachable(c, s)
    ensures s.workers.Keys == c.tasks.Keys
    ensures |Holders(c, s.workers)| <= c.limits.localConcurrency
  {
    ReachableInv(c, s);
    SlotsLimited(c, s);
  }

  lemma LogInOrder(s: State)
    requires LineInv(s)
    ensures Ascending(LogNumbers(s.log))
  {
    LogAscends(LineOf(s));
  }

  /** Callbacks have run in strictly increasing order of their event numbers. */
  lemma EventsInOrder(c: Config, s: State)
    requires Valid(c) && Reachable(c, s)
    ensures Ascending(LogNumbers(s.log))
  {
    ReachableInv(c, s);
    LogInOrder(s);
  }

  // ---- Events of the whole run ----

  /** What anybody may do at the lock: post an event and wait, finish the callback in turn, or leave the line. */
  datatype LineOp = Posts(owner: Owner) | Ends(callback: Callback) | Leaves(k: nat)

  function LineOf(s: State): Line {
    Line(s.log, s.queue, s.seqNo)
  }

  function LineStep(line: Line, op: LineOp): Line {
    match op
    case Posts(owner) => Line(line.log, line.queue + [Ticket(line.seqNo + 1, owner)], line.seqNo + 1)
    case Ends(callback) =>
      if line.queue == [] then line
      else Line(line.log + [Delivery(line.queue[0].seqNo, callback)], Leave(line.queue, 0), line.seqNo)
    case Leaves(k) =>
      Line(if k == 0 && line.queue != [] then line.log + [Delivery(line.queue[0].seqNo, Cut)] else line.log,
           Leave(line.queue, k), line.seqNo)
  }

  function LineAfter(line: Line, ops: seq<LineOp>): Line {
    if ops == [] then line else LineStep(LineAfter(line, ops[..|ops| - 1]), ops[|ops| - 1])
  }

  lemma LineStepKeepsOrder(line: Line, op: LineOp)
    requires Orderly(line)
    ensures Orderly(LineStep(line, op))
  {
    match op
    case Posts(owner) => PushOrder(line.log, line.queue, line.seqNo, owner);
    case Ends(callback) =>
      if line.queue != [] {
        PopOrder(line.log, line.queue, line.seqNo, callback);
      }
    case Leaves(k) =>
      if k == 0 && line.queue != [] {
        PopOrder(line.log, line.queue, line.seqNo, Cut);
      } else {
        LeaveOrder(line.log, line.queue, line.seqNo, k);
      }
  }

  lemma {:induction false} LineKeepsOrder(line: Line, ops: seq<LineOp>)
    requires Orderly(line)
    ensures Orderly(LineAfter(line, ops))
  {
    if ops != [] {
      LineKeepsOrder(line, ops[..|ops| - 1]);
      LineStepKeepsOrder(LineAfter(line, ops[..|ops| - 1]), ops[|ops| - 1]);
    }
  }

  /**
   The whole run: whatever events the phases before the workers posted, whatever the workers do, and whatever is
   posted after them, callbacks run in strictly increasing order of their numbers.
   */
  lemma WholeRunInOrder(before: seq<LineOp>, c: Config, s: State, after: seq<LineOp>)
    requires Valid(c) && c.line == LineAfter(Line([], [], 0), before) && Reachable(c, s)
    ensures Ascending(LogNumbers(LineAfter(LineOf(s), after).log))
  {
    ReachableInv(c, s);
    LineKeepsOrder(LineOf(s), after);
    LogAscends(LineAfter(LineOf(s), after));
  }

  lemma LogAscends(line: Line)
    requires Orderly(line)
    ensures Ascending(LogNumbers(line.log))
  {
    var delivered, all := LogNumbers(line.log), LogNumbers(line.log) + Numbers(line.queue);
    assert forall i :: 0 <= i < |delivered| ==> delivered[i] == all[i];
  }

  lemma SpentSafe(c: Config, s: State)
    requires SpentOk(c, s)
    ensures Within(c.limits, s.spent) && CloudRecords(s.records) == s.spent.calls
    ensures c.limits.cloudEnabled && c.limits.cloudCalls >= 1 ==> Refusal(c.limits, s.spent, Synthesize).None?
  {
  }

  /** The limits hold throughout, and the call that writes the answer is still available afterwards. */
  lemma BudgetSafe(c: Config, s: State)
    requires Valid(c) && Reachable(c, s)
    ensures Within(c.limits, s.spent) && CloudRecords(s.records) == s.spent.calls
    ensures c.limits.cloudEnabled && c.limits.cloudCalls >= 1 ==> Refusal(c.limits, s.spent, Synthesize).None?
  {
    ReachableInv(c, s);
    SpentSafe(c, s);
  }

  lemma RoutesAreShort(c: Config, id: string)
    requires Valid(c) && id in c.tasks
    ensures 1 <= |c.routes[id]| <= c.workerAttempts + |c.tiers| - 1
  {
    assert ValidTask(c, id, c.tasks[id]);
    assert c.routes[id] == TiersFor(c, id);
    WorkerTiersClimb(c.tasks[id].preferredTier, c.tiers, c.workerAttempts, c.escalateFailed);
  }

  lemma AllRoutesAreShort(c: Config, bound: nat)
    requires Valid(c) && bound == c.workerAttempts + |c.tiers| - 1
    ensures forall id :: id in c.tasks ==> |c.routes[id]| <= bound
  {
    forall id | id in c.tasks ensures |c.routes[id]| <= bound {
      RoutesAreShort(c, id);
    }
  }

  lemma CallsBounded(c: Config, s: State, bound: nat)
    requires WorkersOk(c, s.workers, s.results) && RecordsOk(c, s.workers, s.spent, s.records)
    requires forall id :: id in c.tasks ==> |c.routes[id]| <= bound
    ensures |s.records| <= |c.records| + |c.tasks.Keys| * bound
  {
    forall id | id in c.tasks ensures Calls(s.workers)[id] <= bound {
      assert WorkerOk(c, s.results, id, s.workers[id]);
    }
    Sums.SumBounded(s.workers.Keys, Calls(s.workers), bound);
  }

  /** The workers make at most W + L calls for each task, whatever happens. */
  lemma WorkerCallBound(c: Config, s: State, bound: nat)
    requires Valid(c) && Reachable(c, s) && bound == c.workerAttempts + |c.tiers| - 1
    ensures |s.records| <= |c.records| + |c.tasks.Keys| * bound
  {
    ReachableInv(c, s);
    AllRoutesAreShort(c, bound);
    CallsBounded(c, s, bound);
  }
}
