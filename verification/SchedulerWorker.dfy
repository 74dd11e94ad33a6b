/** What holds of a single worker in every reachable state, and why one resumption keeps it. */
module WorkerInvariant {
  import opened Json
  import opened Plans
  import opened Budgets
  import opened Tiers
  import opened Scheduler
  import Results

  /** Every stored value is still there, unchanged. */
  ghost predicate Extends(old_: map<string, Json>, new_: map<string, Json>) {
    forall id :: id in old_ ==> id in new_ && new_[id] == old_[id]
  }

  /** The worker was handed the inputs its task's references name among the stored results. */
  ghost predicate InputsBuilt(c: Config, results: map<string, Json>, id: string, inputs: Results.Inputs)
    requires id in c.tasks
  {
    AllResolve(c.tasks[id], c.sources, results) && inputs == InputsOf(c.tasks[id], c.sources, results)
  }

  /** The stored value of this task passed its checks against those inputs. */
  ghost predicate Checked(c: Config, results: map<string, Json>, id: string)
    requires id in c.tasks && id in results
  {
    && AllResolve(c.tasks[id], c.sources, results)
    && c.validate(c.tasks[id].resultType, results[id], InputsOf(c.tasks[id], c.sources, results)).None?
  }

  /** The worker's counters: one call per attempt at most, and no more cloud calls than calls. */
  ghost predicate Counted(c: Config, id: string, w: Worker)
    requires id in c.tasks && id in c.routes
  {
    && w.charged <= w.made
    && match w.pc
       case Idle => w.made == 0
       case Created => w.made == 0
       case Escalating => w.made <= w.attempt < |c.routes[id]|
       case Queued => w.made <= w.attempt < |c.routes[id]|
       case Announcing => w.made <= w.attempt < |c.routes[id]|
       case Done(_) => w.made <= |c.routes[id]|
       case Broken(_) => w.made <= |c.routes[id]|
       case _ => w.made <= w.attempt + 1 <= |c.routes[id]|
  }

  /** The worker got as far as building its inputs. */
  predicate Informed(w: Worker) {
    || Trying(w.pc) || w.pc.Done? || w.charged > 0
    || (w.pc.Broken? && !w.pc.fault.Unresolved? && !w.pc.fault.Cancelled?)
  }

  ghost predicate WorkerOk(c: Config, results: map<string, Json>, id: string, w: Worker)
    requires id in c.tasks && id in c.routes
  {
    && Counted(c, id, w)
    && (!w.pc.Idle? ==> Deps(c.tasks[id]) <= results.Keys)
    && (Informed(w) ==> InputsBuilt(c, results, id, w.inputs))
    && (w.pc.Storing? || w.pc.Done? ==> id in results)
    && (w.pc.Done? ==> w.pc.value == results[id])
    && (id in results ==> (w.pc.Storing? || Ended(w.pc)) && Checked(c, results, id))
  }

  lemma InputsStable(task: Task, sources: map<string, string>, old_: map<string, Json>, new_: map<string, Json>)
    requires AllResolve(task, sources, old_) && Extends(old_, new_)
    ensures AllResolve(task, sources, new_)
    ensures InputsOf(task, sources, old_) == InputsOf(task, sources, new_)
  {
    forall i | 0 <= i < |task.inputRefs| ensures Resolves(task.inputRefs[i], sources, new_) {
      assert Resolves(task.inputRefs[i], sources, old_);
    }
    forall ref | ref in task.inputRefs ensures InputValue(ref, sources, old_) == InputValue(ref, sources, new_) {
    }
  }

  /** Other workers storing their values does not disturb this one. */
  lemma WorkerOkStable(c: Config, old_: map<string, Json>, new_: map<string, Json>, id: string, w: Worker)
    requires id in c.tasks && id in c.routes
    requires WorkerOk(c, old_, id, w) && Extends(old_, new_) && (id in new_ ==> id in old_)
    ensures WorkerOk(c, new_, id, w)
  {
    if AllResolve(c.tasks[id], c.sources, old_) {
      InputsStable(c.tasks[id], c.sources, old_, new_);
    }
  }

  function Stored(results: map<string, Json>, id: string, e: Effect): map<string, Json> {
    if e.store.Some? then results[id := e.store.value] else results
  }

  /** Everything a resumption of a sound worker may assume. */
  ghost predicate Sound(c: Config, id: string, w: Worker, results: map<string, Json>, trigger: Trigger) {
    id in c.tasks && id in c.routes && WorkerOk(c, results, id, w) && CanReact(w, trigger)
  }

  /** The part of that which does not look at any stored value. */
  ghost predicate Steady(c: Config, id: string, w: Worker, results: map<string, Json>, trigger: Trigger) {
    && id in c.tasks && id in c.routes && CanReact(w, trigger)
    && (Trying(w.pc) ==> w.attempt < |c.routes[id]|)
    && (w.pc.Storing? ==> id in results)
  }

  lemma BeginKeeps(c: Config, id: string, w: Worker, results: map<string, Json>)
    requires id in c.tasks && id in c.routes
    requires Deps(c.tasks[id]) <= results.Keys && InputsBuilt(c, results, id, w.inputs)
    requires id !in results && w.charged <= w.made <= w.attempt <= |c.routes[id]|
    ensures WorkerOk(c, results, id, Begin(c, id, w).worker)
  {
  }

  lemma SettledKeeps(c: Config, id: string, w: Worker, results: map<string, Json>)
    requires id in c.tasks && id in c.routes && WorkerOk(c, results, id, w) && w.pc.Reporting?
    ensures var e := Settled(c, id, w); WorkerOk(c, Stored(results, id, e), id, e.worker)
  {
    var e := Settled(c, id, w);
    var next := Stored(results, id, e);
    InputsStable(c.tasks[id], c.sources, results, next);
  }

  lemma HeardKeeps(c: Config, id: string, w: Worker, results: map<string, Json>, spent: Spent)
    requires Sound(c, id, w, results, Heard) && !w.pc.Reporting?
    ensures WorkerOk(c, results, id, React(c, id, w, results, spent, Heard).worker)
  {
    if w.pc.Rejecting? {
      BeginKeeps(c, id, w.(attempt := w.attempt + 1), results);
    }
  }

  /** A resumption stores at most its own task's value, and only if none was stored. */
  lemma ReactStores(c: Config, id: string, w: Worker, results: map<string, Json>, spent: Spent, trigger: Trigger)
    requires Sound(c, id, w, results, trigger)
    ensures var e := React(c, id, w, results, spent, trigger);
      && Extends(results, Stored(results, id, e))
      && (e.store.Some? ==> id !in results && w.pc.Reporting? && trigger.Heard?)
  {
  }

  /** One resumption keeps the worker sound. */
  lemma ReactKeeps(c: Config, id: string, w: Worker, results: map<string, Json>, spent: Spent, trigger: Trigger)
    requires Sound(c, id, w, results, trigger)
    ensures var e := React(c, id, w, results, spent, trigger); WorkerOk(c, Stored(results, id, e), id, e.worker)
  {
    ReactStores(c, id, w, results, spent, trigger);
    if trigger.Resumed? {
      if AllResolve(c.tasks[id], c.sources, results) {
        BeginKeeps(c, id, w.(attempt := 0, inputs := InputsOf(c.tasks[id], c.sources, results), errors := []), results);
      }
    } else if trigger.Heard? && w.pc.Reporting? {
      SettledKeeps(c, id, w, results);
    } else if trigger.Heard? {
      HeardKeeps(c, id, w, results, spent);
    }
  }

  function Bit(b: bool): int {
    if b then 1 else 0
  }

  /** Slots given back are exactly the slots no longer held, and the reverse. */
  lemma ReactSlots(c: Config, id: string, w: Worker, results: map<string, Json>, spent: Spent, trigger: Trigger)
    requires Steady(c, id, w, results, trigger) && (w.pc.Queued? ==> c.routes[id][w.attempt] != CLOUD)
    ensures var e := React(c, id, w, results, spent, trigger);
      && e.slot == Bit(Holds(c, id, w)) - Bit(Holds(c, id, e.worker))
      && (e.worker.pc.Queued? ==> c.routes[id][e.worker.attempt] != CLOUD)
      && (e.slot < 0 ==> trigger.Granted?)
  {
  }

  /** A worker has an event in the queue exactly while it waits for one; it is never unstarted again. */
  lemma ReactPosts(c: Config, id: string, w: Worker, results: map<string, Json>, spent: Spent, trigger: Trigger)
    requires Steady(c, id, w, results, trigger)
    ensures var e := React(c, id, w, results, spent, trigger);
      && e.posts == Waiting(e.worker.pc)
      && !e.worker.pc.Idle? && !e.worker.pc.Created?
      && e.worker.batch == w.batch
  {
  }

  /** Calls are recorded as they are made; cloud calls are charged, and only if the budget allows. */
  lemma ReactCharges(c: Config, id: string, w: Worker, results: map<string, Json>, spent: Spent, trigger: Trigger)
    requires Steady(c, id, w, results, trigger)
    ensures var e := React(c, id, w, results, spent, trigger);
      && e.worker.made == w.made + |e.records|
      && e.worker.charged == w.charged + (if e.charge then 1 else 0)
      && (e.charge ==> Refusal(c.limits, spent, Work).None?)
      && (|e.records| == 0 || (|e.records| == 1 && (e.records[0].tier == CLOUD <==> e.charge)))
      && (|e.records| == 0 ==> !e.charge)
      && (e.worker.pc == Broken(Refused) ==> Refusal(c.limits, spent, Work).Some?)
  {
  }

  /** How far the worker is from its end. */
  function Rank(c: Config, id: string, w: Worker): nat
    requires id in c.tasks && id in c.routes
  {
    var left := |c.routes[id]| - w.attempt;
    match w.pc
    case Idle => 8 * |c.routes[id]| + 10
    case Created => 8 * |c.routes[id]| + 9
    case Done(_) => 0
    case Broken(_) => 0
    case _ =>
      if left <= 0 then 1
      else 8 * left + match w.pc
                      case Escalating => 6
                      case Queued => 5
                      case Announcing => 4
                      case Calling => 3
                      case Reporting(_) => 2
                      case Rejecting => 1
                      case _ => 0
  }

  lemma ReactProgresses(c: Config, id: string, w: Worker, results: map<string, Json>, spent: Spent, trigger: Trigger)
    requires Steady(c, id, w, results, trigger)
    ensures Rank(c, id, React(c, id, w, results, spent, trigger).worker) < Rank(c, id, w)
  {
  }
}
