/** Batches and budgets over whole runs, and the invariant that puts all parts together. */
module SchedulerRuns {
  import opened Json
  import opened Layers
  import opened Plans
  import opened Budgets
  import opened Tiers
  import opened Scheduler
  import opened WorkerInvariant
  import opened SchedulerInvariant
  import Sums

  /** What a step that resumes a worker leaves alone, and what it changes. */
  lemma ResumedFrame(c: Config, s: State, step: Step)
    requires Shaped(c, s) && Enabled(s, step) && Resumes(s, step).Some?
    ensures var t, e, id := Apply(c, s, step), EffectOf(c, s, step), Who(s, step);
      && t.main == s.main && t.batch == s.batch && t.active == s.active && t.pending == s.pending
      && t.workers == s.workers[id := e.worker] && t.results == Stored(s.results, id, e)
  {
    CarryFrame(Unlock(s, step), Who(s, step), EffectOf(c, s, step));
  }

  // ---- Batches ----

  /** The batch that ran each finished task. */
  function Rounds(c: Config, workers: map<string, Worker>, pending: set<string>): map<string, nat> {
    map id | id in c.tasks && id in workers && id !in pending :: workers[id].batch
  }

  /** Which workers have not started, which are active and which are finished. */
  ghost predicate PhaseOk(c: Config, batch: nat, active: set<string>, pending: set<string>, workers: map<string, Worker>) {
    && workers.Keys == c.tasks.Keys
    && active <= pending <= c.tasks.Keys
    && (forall id :: id in c.tasks ==> (workers[id].pc.Idle? <==> id in pending && id !in active))
    && (forall id :: id in c.tasks && id !in pending ==> workers[id].pc.Done?)
    && (forall id :: id in active ==> workers[id].batch == batch)
  }

  /** How far the batches have come, in terms of the layers of the task graph. */
  ghost predicate LayerOk(g: Graph, batch: nat, active: set<string>, pending: set<string>, rounds: map<string, nat>) {
    && active <= pending && rounds.Keys == g.Keys - pending
    && (active != {} ==> batch >= 1 && active == Ready(g, rounds.Keys))
    && Peeled(g, rounds, if active == {} then batch else batch - 1)
    && batch + |pending| <= |g.Keys| + if active == {} then 0 else 1
  }

  /** Where run_tasks stands. */
  ghost predicate MainOk(c: Config, s: State) {
    && (s.main.Completed? ==> s.pending == {})
    && (s.main.Running? && s.active == {} ==> s.batch == 0 && s.pending == c.tasks.Keys)
  }

  ghost predicate BatchOk(c: Config, s: State) {
    && PhaseOk(c, s.batch, s.active, s.pending, s.workers)
    && LayerOk(GraphIn(c), s.batch, s.active, s.pending, Rounds(c, s.workers, s.pending))
    && MainOk(c, s)
  }

  lemma CarryKeepsPhase(c: Config, s: State, id: string, w: Worker)
    requires PhaseOk(c, s.batch, s.active, s.pending, s.workers) && id in s.workers
    requires !s.workers[id].pc.Idle? && !Ended(s.workers[id].pc)
    requires !w.pc.Idle? && w.batch == s.workers[id].batch
    ensures PhaseOk(c, s.batch, s.active, s.pending, s.workers[id := w])
    ensures id in s.pending
  {
  }

  lemma CarryKeepsRounds(c: Config, workers: map<string, Worker>, pending: set<string>, id: string, w: Worker)
    requires id in workers && id in pending
    ensures Rounds(c, workers[id := w], pending) == Rounds(c, workers, pending)
  {
  }

  /** A worker of the active batch moves on: the batches stay as they are. */
  lemma ResumedKeepsBatch(c: Config, s: State, step: Step)
    requires Shaped(c, s) && Enabled(s, step) && Resumes(s, step).Some? && BatchOk(c, s)
    ensures BatchOk(c, Apply(c, s, step))
  {
    var (id, trigger) := Resumes(s, step).value;
    var e := EffectOf(c, s, step);
    ReactPosts(c, id, s.workers[id], s.results, s.spent, trigger);
    CarryKeepsPhase(c, s, id, e.worker);
    CarryKeepsRounds(c, s.workers, s.pending, id, e.worker);
    ResumedFrame(c, s, step);
  }

  /** Finished workers have stored their value, and no worker stores one before its end. */
  ghost predicate StoresOk(c: Config, workers: map<string, Worker>, results: map<string, Json>) {
    && workers.Keys == c.tasks.Keys && results.Keys <= c.tasks.Keys
    && forall id :: id in c.tasks ==>
         && (workers[id].pc.Done? ==> id in results && results[id] == workers[id].pc.value)
         && (id in results ==> !workers[id].pc.Idle?)
  }

  lemma WorkersStore(c: Config, workers: map<string, Worker>, results: map<string, Json>)
    requires WorkersOk(c, workers, results)
    ensures StoresOk(c, workers, results)
  {
    forall id | id in c.tasks
      ensures workers[id].pc.Done? ==> id in results && results[id] == workers[id].pc.value
      ensures id in results ==> !workers[id].pc.Idle?
    {
      assert WorkerOk(c, results, id, workers[id]);
    }
  }

  /** Once the active batch is done, the stored results are exactly those of the finished tasks. */
  lemma ResultsAreFinished(c: Config, s: State)
    requires StoresOk(c, s.workers, s.results) && PhaseOk(c, s.batch, s.active, s.pending, s.workers)
    requires forall id :: id in s.active ==> s.workers[id].pc.Done?
    ensures s.results.Keys == c.tasks.Keys - (s.pending - s.active)
    ensures Regather(s) == s.results
  {
  }

  lemma ReadyIsLayer(c: Config, s: State, pending: set<string>)
    requires pending <= c.tasks.Keys && s.results.Keys == c.tasks.Keys - pending
    ensures ReadyIn(c, s, pending) == Ready(GraphIn(c), c.tasks.Keys - pending)
  {
  }

  lemma NothingFinished(rounds: map<string, nat>, n: nat)
    ensures AddRound(rounds, {}, n) == rounds
  {
  }

  /** Finishing a batch completes one more layer. */
  lemma LayerFinished(g: Graph, n: nat, batch: nat, active: set<string>, rounds: map<string, nat>)
    requires Closed(g) && Peeled(g, rounds, n) && active == Ready(g, rounds.Keys) && batch == n + 1
    ensures Peeled(g, AddRound(rounds, active, batch), batch)
  {
    PeelRound(g, rounds, n);
  }

  lemma LayersFinished(g: Graph, batch: nat, active: set<string>, pending: set<string>, rounds: map<string, nat>)
    requires Closed(g) && LayerOk(g, batch, active, pending, rounds)
    ensures Peeled(g, AddRound(rounds, active, batch), batch)
  {
    if active == {} {
      NothingFinished(rounds, batch);
    } else {
      LayerFinished(g, batch - 1, batch, active, rounds);
    }
  }

  lemma CountAfter(all: set<string>, batch: nat, active: set<string>, pending: set<string>)
    requires active <= pending && batch + |pending| <= |all| + if active == {} then 0 else 1
    ensures batch + |pending - active| <= |all|
  {
    if active == {} {
      assert pending - active == pending;
    } else {
      assert |pending - active| == |pending| - |active|;
      var x :| x in active;
      SubsetSize({x}, active);
    }
  }

  lemma RoundsAfter(c: Config, s: State)
    requires PhaseOk(c, s.batch, s.active, s.pending, s.workers)
    ensures Rounds(c, s.workers, s.pending - s.active) == AddRound(Rounds(c, s.workers, s.pending), s.active, s.batch)
  {
  }

  ghost predicate SoundGraph(c: Config) {
    Closed(GraphIn(c)) && Acyclic(GraphIn(c))
  }

  lemma ValidIsSound(c: Config)
    requires Valid(c)
    ensures SoundGraph(c)
  {
    forall id | id in c.tasks ensures Deps(c.tasks[id]) <= c.tasks.Keys {
      assert ValidTask(c, id, c.tasks[id]);
    }
  }

  /** A validated plan never runs out of executable tasks before it is finished. */
  lemma SomeTaskIsReady(c: Config, s: State, pending: set<string>)
    requires SoundGraph(c) && StoresOk(c, s.workers, s.results)
    requires PhaseOk(c, s.batch, s.active, s.pending, s.workers)
    requires forall id :: id in s.active ==> s.workers[id].pc.Done?
    requires pending == s.pending - s.active && pending != {}
    ensures ReadyIn(c, s, pending) == Ready(GraphIn(c), c.tasks.Keys - pending)
    ensures ReadyIn(c, s, pending) != {}
  {
    ResultsAreFinished(c, s);
    ReadyIsLayer(c, s, pending);
    var t :| t in pending;
    assert t !in c.tasks.Keys - pending;
    SomethingIsReady(GraphIn(c), c.tasks.Keys - pending);
  }

  lemma LaunchKeepsPhase(c: Config, s: State, ready: set<string>)
    requires PhaseOk(c, s.batch, s.active, s.pending, s.workers)
    requires forall id :: id in s.active ==> s.workers[id].pc.Done?
    requires ready <= s.pending - s.active
    ensures PhaseOk(c, s.batch + 1, ready, s.pending - s.active, Launch(s.workers, ready, s.batch + 1))
  {
  }

  lemma LaunchKeepsRounds(c: Config, workers: map<string, Worker>, pending: set<string>, ready: set<string>, batch: nat)
    requires ready <= pending
    ensures Rounds(c, Launch(workers, ready, batch), pending) == Rounds(c, workers, pending)
  {
  }

  /** The layers once the active batch is finished, whatever comes next. */
  lemma FinishedLayers(c: Config, s: State)
    requires Closed(GraphIn(c)) && PhaseOk(c, s.batch, s.active, s.pending, s.workers)
    requires LayerOk(GraphIn(c), s.batch, s.active, s.pending, Rounds(c, s.workers, s.pending))
    ensures Peeled(GraphIn(c), Rounds(c, s.workers, s.pending - s.active), s.batch)
    ensures s.batch + |s.pending - s.active| <= |GraphIn(c).Keys|
  {
    RoundsAfter(c, s);
    LayersFinished(GraphIn(c), s.batch, s.active, s.pending, Rounds(c, s.workers, s.pending));
    CountAfter(GraphIn(c).Keys, s.batch, s.active, s.pending);
  }

  lemma NextLayerOk(c: Config, s: State, pending: set<string>, ready: set<string>)
    requires PhaseOk(c, s.batch, s.active, s.pending, s.workers) && pending <= c.tasks.Keys
    requires Peeled(GraphIn(c), Rounds(c, s.workers, pending), s.batch)
    requires s.batch + |pending| <= |GraphIn(c).Keys|
    requires ready == Ready(GraphIn(c), c.tasks.Keys - pending) && ready != {}
    ensures ready <= pending
    ensures LayerOk(GraphIn(c), s.batch + 1, ready, pending, Rounds(c, Launch(s.workers, ready, s.batch + 1), pending))
  {
    assert Rounds(c, s.workers, pending).Keys == c.tasks.Keys - pending;
    LaunchKeepsRounds(c, s.workers, pending, ready, s.batch + 1);
    LayerStarts(GraphIn(c), s.batch, pending, ready, Rounds(c, s.workers, pending));
  }

  lemma LayerStarts(g: Graph, batch: nat, pending: set<string>, ready: set<string>, rounds: map<string, nat>)
    requires Peeled(g, rounds, batch) && rounds.Keys == g.Keys - pending && batch + |pending| <= |g.Keys|
    requires ready == Ready(g, rounds.Keys) && ready != {}
    ensures LayerOk(g, batch + 1, ready, pending, rounds)
  {
  }

  lemma StartBatchOk(c: Config, s: State, pending: set<string>, ready: set<string>)
    requires PhaseOk(c, s.batch, s.active, s.pending, s.workers) && s.main.Running?
    requires forall id :: id in s.active ==> s.workers[id].pc.Done?
    requires pending == s.pending - s.active && pending != {}
    requires Peeled(GraphIn(c), Rounds(c, s.workers, pending), s.batch)
    requires s.batch + |pending| <= |GraphIn(c).Keys|
    requires ready == Ready(GraphIn(c), c.tasks.Keys - pending) && ready != {}
    ensures BatchOk(c, s.(batch := s.batch + 1, active := ready, pending := pending,
                          workers := Launch(s.workers, ready, s.batch + 1)))
  {
    NextLayerOk(c, s, pending, ready);
    LaunchKeepsPhase(c, s, ready);
  }

  /** The last batch leaves nothing pending: every task has its layer. */
  lemma LastBatchOk(c: Config, s: State)
    requires PhaseOk(c, s.batch, s.active, s.pending, s.workers) && s.pending - s.active == {}
    requires forall id :: id in s.active ==> s.workers[id].pc.Done?
    requires Peeled(GraphIn(c), Rounds(c, s.workers, s.pending - s.active), s.batch)
    requires s.batch + |s.pending - s.active| <= |GraphIn(c).Keys|
    ensures BatchOk(c, s.(main := Completed, active := {}, pending := {}))
  {
    assert Rounds(c, s.workers, {}).Keys == GraphIn(c).Keys - {};
  }

  lemma AdvanceCases(c: Config, s: State)
    requires Regather(s) == s.results
    ensures var pending, ready := s.pending - s.active, ReadyIn(c, s, s.pending - s.active);
      && (pending == {} ==> Advance(c, s) == s.(main := Completed, active := {}, pending := {}))
      && (pending != {} && ready != {} ==>
          Advance(c, s) == s.(batch := s.batch + 1, active := ready, pending := pending,
                              workers := Launch(s.workers, ready, s.batch + 1)))
  {
    assert s.(results := s.results) == s;
  }

  lemma NextBatchKeepsBatch(c: Config, s: State)
    requires SoundGraph(c) && StoresOk(c, s.workers, s.results) && BatchOk(c, s)
    requires s.main.Running? && forall id :: id in s.active ==> s.workers[id].pc.Done?
    ensures BatchOk(c, Advance(c, s)) && !Advance(c, s).main.Stopped?
  {
    var pending := s.pending - s.active;
    ResultsAreFinished(c, s);
    FinishedLayers(c, s);
    AdvanceCases(c, s);
    if pending == {} {
      LastBatchOk(c, s);
    } else {
      SomeTaskIsReady(c, s, pending);
      StartBatchOk(c, s, pending, ReadyIn(c, s, pending));
    }
  }

  /** Steps that neither resume a worker nor start a batch leave workers, results and batches alone. */
  lemma AsideFrame(c: Config, s: State, step: Step)
    requires Shaped(c, s) && Enabled(s, step) && Resumes(s, step).None? && !step.NextBatch?
    ensures var t := Apply(c, s, step);
      && t.workers == s.workers && t.results == s.results && t.batch == s.batch
      && t.active == s.active && t.pending == s.pending && t.free == s.free
      && t.spent == s.spent && t.records == s.records
      && (t.main == s.main || t.main.Draining? || t.main.Stopped?)
  {
  }

  lemma StepKeepsBatch(c: Config, s: State, step: Step)
    requires SoundGraph(c) && StoresOk(c, s.workers, s.results) && BatchOk(c, s) && Shaped(c, s) && Enabled(s, step)
    ensures BatchOk(c, Apply(c, s, step))
  {
    if Resumes(s, step).Some? {
      ResumedKeepsBatch(c, s, step);
    } else if step.NextBatch? {
      NextBatchKeepsBatch(c, s);
    } else {
      AsideFrame(c, s, step);
    }
  }

  // ---- Budget and records ----

  function Charges(workers: map<string, Worker>): map<string, nat> {
    map id | id in workers :: workers[id].charged
  }

  function Calls(workers: map<string, Worker>): map<string, nat> {
    map id | id in workers :: workers[id].made
  }

  /** The budget has been charged once for every cloud call of a worker, and refused only when spent. */
  ghost predicate BudgetOk(c: Config, workers: map<string, Worker>, spent: Spent) {
    && spent.calls == c.spent.calls + Sums.Sum(workers.Keys, Charges(workers))
    && spent.workerCalls == c.spent.workerCalls + Sums.Sum(workers.Keys, Charges(workers))
    && Reserved(c.limits, spent)
    && (Sums.Sum(workers.Keys, Charges(workers)) > 0 ==> c.limits.cloudEnabled && spent.calls < c.limits.cloudCalls)
    && forall id :: id in workers && workers[id].pc == Broken(Refused) ==> Refusal(c.limits, spent, Work).Some?
  }

  /** Every call is on record, and the cloud ones are as many as were charged. */
  ghost predicate RecordsOk(c: Config, workers: map<string, Worker>, spent: Spent, records: seq<Record>) {
    && CloudRecords(records) == spent.calls
    && |records| == |c.records| + Sums.Sum(workers.Keys, Calls(workers))
  }

  ghost predicate SpentOk(c: Config, s: State) {
    BudgetOk(c, s.workers, s.spent) && RecordsOk(c, s.workers, s.spent, s.records)
  }

  lemma CloudRecordsAppend(records: seq<Record>, r: Record)
    ensures CloudRecords(records + [r]) == CloudRecords(records) + if r.tier == CLOUD then 1 else 0
  {
    assert (records + [r])[..|records|] == records;
  }

  /** The local facts about an effect that the budget depends on. */
  ghost predicate Accounted(c: Config, w: Worker, e: Effect, spent: Spent) {
    && e.worker.made == w.made + |e.records|
    && e.worker.charged == w.charged + (if e.charge then 1 else 0)
    && (e.charge ==> Refusal(c.limits, spent, Work).None?)
    && (|e.records| == 0 || (|e.records| == 1 && (e.records[0].tier == CLOUD <==> e.charge)))
    && (|e.records| == 0 ==> !e.charge)
    && (e.worker.pc == Broken(Refused) ==> Refusal(c.limits, spent, Work).Some?)
  }

  lemma SumsMove(workers: map<string, Worker>, id: string, w: Worker)
    requires id in workers
    ensures Sums.Sum(workers.Keys, Charges(workers[id := w])) - w.charged
         == Sums.Sum(workers.Keys, Charges(workers)) - workers[id].charged
    ensures Sums.Sum(workers.Keys, Calls(workers[id := w])) - w.made
         == Sums.Sum(workers.Keys, Calls(workers)) - workers[id].made
    ensures workers[id := w].Keys == workers.Keys
  {
    Sums.SumChange(workers.Keys, Charges(workers[id := w]), Charges(workers), id);
    Sums.SumChange(workers.Keys, Calls(workers[id := w]), Calls(workers), id);
    assert workers[id := w].Keys == workers.Keys;
  }

  lemma CarryKeepsBudget(c: Config, s: State, id: string, e: Effect)
    requires BudgetOk(c, s.workers, s.spent) && id in s.workers && Accounted(c, s.workers[id], e, s.spent)
    ensures var t := Carry(s, id, e); BudgetOk(c, t.workers, t.spent)
  {
    SumsMove(s.workers, id, e.worker);
    if e.charge {
      ChargeStaysWithin(c.limits, s.spent, Work);
    }
  }

  lemma CarryKeepsRecords(c: Config, s: State, id: string, e: Effect)
    requires RecordsOk(c, s.workers, s.spent, s.records)
    requires id in s.workers && Accounted(c, s.workers[id], e, s.spent)
    ensures var t := Carry(s, id, e); RecordsOk(c, t.workers, t.spent, t.records)
  {
    SumsMove(s.workers, id, e.worker);
    if |e.records| == 1 {
      assert e.records == [e.records[0]];
      CloudRecordsAppend(s.records, e.records[0]);
    } else {
      assert s.records + e.records == s.records;
    }
  }

  lemma LaunchKeepsSums(workers: map<string, Worker>, ready: set<string>, batch: nat)
    ensures Launch(workers, ready, batch).Keys == workers.Keys
    ensures Charges(Launch(workers, ready, batch)) == Charges(workers)
    ensures Calls(Launch(workers, ready, batch)) == Calls(workers)
  {
  }

  /** Starting a batch touches nothing but the workers it starts. */
  lemma AdvanceFrame(c: Config, s: State)
    ensures var t, ready := Advance(c, s), ReadyIn(c, s.(results := Regather(s)), s.pending - s.active);
      && t.free == s.free && t.spent == s.spent && t.records == s.records
      && t.queue == s.queue && t.log == s.log && t.seqNo == s.seqNo
      && (t.workers == s.workers || t.workers == Launch(s.workers, ready, s.batch + 1))
      && ready <= s.pending - s.active
  {
  }

  lemma ResumedKeepsSpent(c: Config, s: State, step: Step)
    requires Shaped(c, s) && Enabled(s, step) && Resumes(s, step).Some?
    requires SpentOk(c, s)
    ensures SpentOk(c, Apply(c, s, step))
  {
    var (id, trigger) := Resumes(s, step).value;
    ReactCharges(c, id, s.workers[id], s.results, s.spent, trigger);
    CarryKeepsBudget(c, Unlock(s, step), id, EffectOf(c, s, step));
    CarryKeepsRecords(c, Unlock(s, step), id, EffectOf(c, s, step));
  }

  // ---- Everything together ----

  ghost predicate LineInv(s: State) {
    LineOk(s.workers, s.queue) && InOrder(s.log, s.queue, s.seqNo)
  }

  ghost predicate Inv(c: Config, s: State) {
    && WorkersOk(c, s.workers, s.results)
    && BatchOk(c, s)
    && SlotsOk(c, s.workers, s.free)
    && LineInv(s)
    && SpentOk(c, s)
  }

  lemma InvShaped(c: Config, s: State)
    requires WorkersOk(c, s.workers, s.results) && BatchOk(c, s)
    ensures Shaped(c, s)
  {
    WorkersOkShaped(c, s);
  }

  lemma InitWorkers(c: Config)
    requires c.routes.Keys == c.tasks.Keys
    ensures WorkersOk(c, Init(c).workers, Init(c).results)
  {
    var s := Init(c);
    forall id | id in c.tasks ensures WorkerOk(c, s.results, id, s.workers[id]) {
    }
  }

  lemma InitLayer(g: Graph)
    ensures LayerOk(g, 0, {}, g.Keys, map[])
  {
  }

  lemma InitPhase(c: Config)
    ensures PhaseOk(c, 0, {}, c.tasks.Keys, Init(c).workers)
  {
  }

  lemma InitBatch(c: Config)
    ensures BatchOk(c, Init(c))
  {
    InitPhase(c);
    InitLayer(GraphIn(c));
    assert Rounds(c, Init(c).workers, c.tasks.Keys) == map[];
    assert GraphIn(c).Keys == c.tasks.Keys;
  }

  lemma InitSpent(c: Config)
    requires Valid(c)
    ensures SpentOk(c, Init(c))
  {
    var workers := Init(c).workers;
    Sums.SumZero(workers.Keys, Charges(workers));
    Sums.SumZero(workers.Keys, Calls(workers));
  }

  lemma InitSlots(c: Config)
    requires c.routes.Keys == c.tasks.Keys
    ensures SlotsOk(c, Init(c).workers, Init(c).free)
  {
    assert Holders(c, Init(c).workers) == {};
  }

  lemma InitLine(c: Config)
    requires Orderly(c.line) && WatchersOnly(c.line.queue)
    ensures LineInv(Init(c))
  {
  }

  lemma InitInv(c: Config)
    requires Valid(c)
    ensures Inv(c, Init(c))
  {
    InitWorkers(c);
    InitBatch(c);
    InitSlots(c);
    InitLine(c);
    InitSpent(c);
  }

  lemma StepKeepsWorkers(c: Config, s: State, step: Step)
    requires WorkersOk(c, s.workers, s.results) && Shaped(c, s) && Enabled(s, step)
    requires forall id :: id in s.pending && id !in s.active ==> s.workers[id].pc.Idle?
    ensures var t := Apply(c, s, step); WorkersOk(c, t.workers, t.results) && Extends(s.results, t.results)
  {
    if Resumes(s, step).Some? {
      ResumedKeepsWorkers(c, s, step);
    } else if step.NextBatch? {
      NextBatchKeepsWorkers(c, s);
    } else {
      AsideFrame(c, s, step);
    }
  }

  lemma StepKeepsSlots(c: Config, s: State, step: Step)
    requires Shaped(c, s) && Enabled(s, step) && SlotsOk(c, s.workers, s.free)
    requires PhaseOk(c, s.batch, s.active, s.pending, s.workers)
    ensures var t := Apply(c, s, step); t.workers.Keys == c.tasks.Keys && SlotsOk(c, t.workers, t.free)
  {
    if Resumes(s, step).Some? {
      ResumedKeepsSlots(c, s, step);
    } else if step.NextBatch? {
      AdvanceFrame(c, s);
      LaunchKeepsSlots(c, s, ReadyIn(c, s.(results := Regather(s)), s.pending - s.active), s.batch + 1);
    } else {
      AsideFrame(c, s, step);
    }
  }

  lemma NextKeepsLine(c: Config, s: State)
    requires Shaped(c, s) && Enabled(s, NextBatch) && LineInv(s) && PhaseOk(c, s.batch, s.active, s.pending, s.workers)
    ensures LineInv(Apply(c, s, NextBatch))
  {
    AdvanceFrame(c, s);
    LaunchKeepsLine(s.workers, s.queue, ReadyIn(c, s.(results := Regather(s)), s.pending - s.active), s.batch + 1);
  }

  lemma StepKeepsLine(c: Config, s: State, step: Step)
    requires Shaped(c, s) && Enabled(s, step) && LineInv(s)
    requires PhaseOk(c, s.batch, s.active, s.pending, s.workers)
    ensures LineInv(Apply(c, s, step))
  {
    if Resumes(s, step).Some? {
      ResumedKeepsLine(c, s, step);
    } else {
      match step
      case NextBatch =>
        NextKeepsLine(c, s);
      case Watch(id) =>
        WatchKeepsLine(s.workers, s.queue, s.seqNo + 1, id);
        PushOrder(s.log, s.queue, s.seqNo, OfWatcher(id));
      case Unwatch(k) =>
        LeaveLine(s.workers, s.queue, k);
        DropOrder(s, k);
      case Deliver(callback) =>
        LeaveLine(s.workers, s.queue, 0);
        PopOrder(s.log, s.queue, s.seqNo, callback);
      case _ =>
    }
  }

  lemma StepKeepsSpent(c: Config, s: State, step: Step)
    requires Shaped(c, s) && Enabled(s, step) && SpentOk(c, s)
    ensures SpentOk(c, Apply(c, s, step))
  {
    if Resumes(s, step).Some? {
      ResumedKeepsSpent(c, s, step);
    } else if step.NextBatch? {
      AdvanceFrame(c, s);
      LaunchKeepsSums(s.workers, ReadyIn(c, s.(results := Regather(s)), s.pending - s.active), s.batch + 1);
    } else {
      AsideFrame(c, s, step);
    }
  }

  /** Every step keeps the invariant and every value stored so far. */
  lemma StepKeepsInv(c: Config, s: State, step: Step)
    requires Valid(c) && Inv(c, s) && Shaped(c, s) && Enabled(s, step)
    ensures Inv(c, Apply(c, s, step)) && Extends(s.results, Apply(c, s, step).results)
  {
    StepKeepsWorkers(c, s, step);
    ValidIsSound(c);
    WorkersStore(c, s.workers, s.results);
    StepKeepsBatch(c, s, step);
    StepKeepsSlots(c, s, step);
    StepKeepsLine(c, s, step);
    StepKeepsSpent(c, s, step);
  }
}
