/**
 The batch scheduler as a step system. `run_tasks` starts a batch of workers and waits for all of them;
 the workers interleave at every await. They share the stored results, the cloud budget, the local slots
 and the event lock, whose FIFO queue is kept with its holder at the head.

 A worker waits in one place at a time, so its whole coroutine is a program counter and a few locals.
 `React` is one resumption of a worker up to its next await; `Apply` carries it out on the shared state.
 */
module Scheduler {
  import opened Json
  import opened Layers
  import opened Plans
  import opened Budgets
  import opened Tiers
  import Results

  // ---- The line at the event lock ----

  datatype Owner = OfWorker(id: string) | OfWatcher(id: string)

  datatype Ticket = Ticket(seqNo: nat, owner: Owner)

  /** How a progress callback ended; Cut means that its waiter was cancelled while it ran. */
  datatype Callback = Returned | Raised | TimedOut | Cut

  datatype Delivery = Delivery(seqNo: nat, callback: Callback)

  /** The callbacks that ran, the holder of the lock and the waiters in order, and the last number given out. */
  datatype Line = Line(log: seq<Delivery>, queue: seq<Ticket>, seqNo: nat)

  ghost predicate Ascending(numbers: seq<nat>) {
    forall i, j :: 0 <= i < j < |numbers| ==> numbers[i] < numbers[j]
  }

  function Numbers(queue: seq<Ticket>): seq<nat> {
    seq(|queue|, i requires 0 <= i < |queue| => queue[i].seqNo)
  }

  function LogNumbers(log: seq<Delivery>): seq<nat> {
    seq(|log|, i requires 0 <= i < |log| => log[i].seqNo)
  }

  /** Everything delivered so far, then everything in line: numbered in strictly increasing order. */
  ghost predicate InOrder(log: seq<Delivery>, queue: seq<Ticket>, seqNo: nat) {
    && Ascending(LogNumbers(log) + Numbers(queue))
    && (forall i :: 0 <= i < |queue| ==> queue[i].seqNo <= seqNo)
    && (forall i :: 0 <= i < |log| ==> log[i].seqNo <= seqNo)
  }

  ghost predicate Orderly(line: Line) {
    InOrder(line.log, line.queue, line.seqNo)
  }

  /** No worker is in line yet; watchers of earlier calls may be. */
  predicate WatchersOnly(queue: seq<Ticket>) {
    forall i :: 0 <= i < |queue| ==> queue[i].owner.OfWatcher?
  }

  // ---- What the scheduler is given ----

  /** A model call replies, fails with a RelayError, or ends the run (a timeout or any other exception). */
  datatype Outcome = Replied(value: Json) | Failed(message: string) | Aborted

  datatype Payload = Payload(task: Task, inputs: Results.Inputs, attempt: nat, errors: seq<string>)

  datatype Record = Record(tier: string, op: Operation, task: string, attempt: nat)

  datatype Config = Config(
    tasks: map<string, Task>,
    sources: map<string, string>,
    tiers: seq<string>,
    limits: Limits,
    workerAttempts: nat,
    escalateFailed: bool,
    routes: map<string, seq<string>>,  // for each task, the tier of each attempt
    validate: (string, Json, Results.Inputs) -> Option<string>,  // the checks of each result type
    spent: Spent,              // the budget when the workers start
    records: seq<Record>,      // the calls made before the workers start
    line: Line,                // the event lock when the workers start
    provider: (string, Payload) -> Outcome
  )

  function GraphIn(c: Config): Graph {
    map id | id in c.tasks :: Deps(c.tasks[id])
  }

  ghost predicate ValidTask(c: Config, id: string, task: Task) {
    task.id == id && TaskOk(task, c.tiers) && DepsOk(task, c.tasks.Keys) && RefsOk(task, c.sources)
  }

  /** A validated plan together with settings that passed their own checks. */
  ghost predicate Valid(c: Config) {
    && (forall id :: id in c.tasks ==> ValidTask(c, id, c.tasks[id]))
    && c.tasks.Keys != {}
    && Acyclic(GraphIn(c))
    && Ladder(c.tiers) && c.workerAttempts >= 1
    && c.routes.Keys == c.tasks.Keys
    && (forall id :: id in c.tasks ==> c.routes[id] == TiersFor(c, id))
    && ValidLimits(c.limits) && Reserved(c.limits, c.spent)
    && CloudRecords(c.records) == c.spent.calls
    && Orderly(c.line) && WatchersOnly(c.line.queue)
  }

  function CloudRecords(records: seq<Record>): nat {
    if records == [] then 0
    else CloudRecords(records[..|records| - 1]) + if records[|records| - 1].tier == CLOUD then 1 else 0
  }

  function TiersFor(c: Config, id: string): seq<string>
    requires id in c.tasks && c.tasks[id].preferredTier in c.tiers
  {
    WorkerTiers(c.tasks[id].preferredTier, c.tiers, c.workerAttempts, c.escalateFailed)
  }

  // ---- State ----

  datatype Fault =
    | Exhausted   // every attempt failed its checks
    | Refused     // the cloud budget refused a call
    | Crashed     // a call ended in something other than a RelayError
    | Unresolved  // an input reference could not be unpacked
    | Cancelled

  datatype Pc =
    | Idle                         // not in any batch yet
    | Created                      // task created, not resumed yet
    | Escalating                   // awaits delivery of task_escalated
    | Queued                       // awaits a local slot
    | Announcing                   // awaits delivery of task_started
    | Calling                      // awaits the model
    | Reporting(outcome: Outcome)  // awaits delivery of call_finished
    | Rejecting                    // awaits delivery of task_invalid
    | Storing                      // awaits delivery of task_completed
    | Done(value: Json)
    | Broken(fault: Fault)

  datatype Worker = Worker(
    pc: Pc,
    attempt: nat,            // index into the tiers it tries; on record, attempts count from 1
    inputs: Results.Inputs,
    errors: seq<string>,
    batch: nat,              // the batch that started it
    made: nat,               // model calls made
    charged: nat             // of those, cloud calls
  )

  datatype Main = Running | Draining | Completed | Stopped

  datatype State = State(
    main: Main,
    batch: nat,
    active: set<string>,      // the batch being awaited
    pending: set<string>,     // includes the active batch
    workers: map<string, Worker>,
    results: map<string, Json>,
    spent: Spent,
    records: seq<Record>,
    free: int,                // local slots left
    seqNo: nat,
    queue: seq<Ticket>,       // the event lock: its holder, then the waiters in order
    log: seq<Delivery>        // callbacks in the order they ran
  )

  predicate Over(s: State) {
    s.main.Completed? || s.main.Stopped?
  }

  predicate Ended(pc: Pc) {
    pc.Done? || pc.Broken?
  }

  /** The worker awaits the delivery of an event it has posted. */
  predicate Waiting(pc: Pc) {
    pc.Escalating? || pc.Announcing? || pc.Reporting? || pc.Rejecting? || pc.Storing?
  }

  /** The worker is inside an attempt. */
  predicate Trying(pc: Pc) {
    pc.Escalating? || pc.Queued? || pc.Announcing? || pc.Calling? || pc.Reporting? || pc.Rejecting? || pc.Storing?
  }

  predicate Holds(c: Config, id: string, w: Worker)
    requires id in c.tasks && id in c.routes
  {
    && (w.pc.Announcing? || w.pc.Calling? || w.pc.Reporting?)
    && w.attempt < |c.routes[id]| && c.routes[id][w.attempt] != CLOUD
  }

  // ---- One worker ----

  predicate AllResolve(task: Task, sources: map<string, string>, results: map<string, Json>) {
    forall i :: 0 <= i < |task.inputRefs| ==> Resolves(task.inputRefs[i], sources, results)
  }

  function InputValue(ref: string, sources: map<string, string>, results: map<string, Json>): Json
    requires Resolves(ref, sources, results)
  {
    var (prefix, key) := Partition(ref);
    if prefix == Results.SOURCES then JStr(sources[key]) else results[key]
  }

  function InputsOf(task: Task, sources: map<string, string>, results: map<string, Json>): Results.Inputs
    requires AllResolve(task, sources, results)
  {
    map ref | ref in task.inputRefs :: InputValue(ref, sources, results)
  }

  /** What one resumption of a worker does to the worker and to the shared state. */
  datatype Effect = Effect(
    worker: Worker,
    posts: bool,               // an event joins the lock's queue
    slot: int,                 // slots given back (1) or taken (-1)
    store: Option<Json>,
    charge: bool,              // the cloud budget is charged
    records: seq<Record>
  )

  datatype Trigger = Resumed | Granted | Answered(outcome: Outcome) | Heard | Killed

  predicate CanReact(w: Worker, trigger: Trigger) {
    match trigger
    case Resumed => w.pc.Created?
    case Granted => w.pc.Queued?
    case Answered(_) => w.pc.Calling?
    case Heard => Waiting(w.pc)
    case Killed => !w.pc.Idle? && !Ended(w.pc)
  }

  function Quiet(w: Worker): Effect {
    Effect(w, false, 0, None, false, [])
  }

  function Posting(w: Worker): Effect {
    Effect(w, true, 0, None, false, [])
  }

  /** The top of the attempt loop. */
  function Begin(c: Config, id: string, w: Worker): Effect
    requires id in c.tasks && id in c.routes
  {
    var tiers := c.routes[id];
    if w.attempt >= |tiers| then Quiet(w.(pc := Broken(Exhausted)))
    else
      var previous := if w.attempt == 0 then c.tasks[id].preferredTier else tiers[w.attempt - 1];
      if tiers[w.attempt] != previous then Posting(w.(pc := Escalating)) else Enter(c, id, w)
  }

  /** A local attempt queues for a slot first; a cloud attempt goes straight ahead. */
  function Enter(c: Config, id: string, w: Worker): Effect
    requires id in c.tasks && id in c.routes && w.attempt < |c.routes[id]|
  {
    if c.routes[id][w.attempt] != CLOUD then Quiet(w.(pc := Queued)) else Posting(w.(pc := Announcing))
  }

  /** The call itself: a cloud call is charged first and may be refused. */
  function Dial(c: Config, id: string, w: Worker, spent: Spent): Effect
    requires id in c.tasks && id in c.routes && w.attempt < |c.routes[id]|
  {
    var tier := c.routes[id][w.attempt];
    var record := Record(tier, Work, id, w.attempt + 1);
    var calling := w.(pc := Calling, made := w.made + 1);
    if tier != CLOUD then Effect(calling, false, 0, None, false, [record])
    else if Refusal(c.limits, spent, Work).Some? then Quiet(w.(pc := Broken(Refused)))
    else Effect(calling.(charged := w.charged + 1), false, 0, None, true, [record])
  }

  function Reject(w: Worker, error: string): Effect {
    Posting(w.(pc := Rejecting, errors := w.errors + [error]))
  }

  /** After call_finished: leave the slot, then check and store the value or note the error. */
  function Settled(c: Config, id: string, w: Worker): Effect
    requires id in c.tasks && id in c.routes && w.pc.Reporting?
  {
    var effect :=
      match w.pc.outcome
      case Aborted => Quiet(w.(pc := Broken(Crashed)))
      case Failed(message) => Reject(w, message)
      case Replied(raw) =>
        var value := Results.WithoutJudgment(raw);
        match c.validate(c.tasks[id].resultType, value, w.inputs)
        case Some(error) => Reject(w, error)
        case None => Posting(w.(pc := Storing)).(store := Some(value));
    effect.(slot := if Holds(c, id, w) then 1 else 0)
  }

  /** One resumption of the worker for this task, up to its next await. */
  function React(c: Config, id: string, w: Worker, results: map<string, Json>, spent: Spent, trigger: Trigger): Effect
    requires id in c.tasks && id in c.routes
    requires CanReact(w, trigger)
    requires Trying(w.pc) ==> w.attempt < |c.routes[id]|
    requires w.pc.Storing? ==> id in results
  {
    match trigger
    case Resumed =>
      if AllResolve(c.tasks[id], c.sources, results) then
        Begin(c, id, w.(attempt := 0, inputs := InputsOf(c.tasks[id], c.sources, results), errors := []))
      else Quiet(w.(pc := Broken(Unresolved)))
    case Granted => Posting(w.(pc := Announcing)).(slot := -1)
    case Answered(outcome) => Posting(w.(pc := Reporting(outcome)))
    case Killed => Quiet(w.(pc := Broken(Cancelled))).(slot := if Holds(c, id, w) then 1 else 0)
    case Heard =>
      if w.pc.Escalating? then Enter(c, id, w)
      else if w.pc.Announcing? then Dial(c, id, w, spent)
      else if w.pc.Reporting? then Settled(c, id, w)
      else if w.pc.Rejecting? then Begin(c, id, w.(attempt := w.attempt + 1))
      else Quiet(w.(pc := Done(results[id])))
  }

  // ---- Steps of the whole system ----

  datatype Step =
    | Resume(id: string)
    | TakeSlot(id: string)
    | Reply(id: string, outcome: Outcome)
    | Deliver(callback: Callback)   // the lock holder's callback returns, raises or times out
    | Watch(id: string)             // a live-output watcher posts an event
    | Unwatch(k: nat)               // a cancelled watcher leaves the queue
    | NextBatch                     // gather returns: finish the batch, start the next one
    | NoticeFailure                 // gather raises
    | Interrupt                     // the caller cancels, or the run deadline passes
    | Cancel(id: string)
    | Settle                        // every worker of the failed batch has ended

  function Init(c: Config): State {
    State(Running, 0, {}, c.tasks.Keys, map id | id in c.tasks :: Worker(Idle, 0, map[], [], 0, 0, 0), map[],
          c.spent, c.records, c.limits.localConcurrency, c.line.seqNo, c.line.queue, c.line.log)
  }

  function Post(s: State, owner: Owner): State {
    s.(seqNo := s.seqNo + 1, queue := s.queue + [Ticket(s.seqNo + 1, owner)])
  }

  function Carry(s: State, id: string, e: Effect): State {
    var t := s.(workers := s.workers[id := e.worker],
                free := s.free + e.slot,
                results := if e.store.Some? then s.results[id := e.store.value] else s.results,
                spent := if e.charge then Charge(s.spent, Work) else s.spent,
                records := s.records + e.records);
    if e.posts then Post(t, OfWorker(id)) else t
  }

  /** The first place in the queue that belongs to this owner, or its length. */
  function Place(queue: seq<Ticket>, owner: Owner): (k: nat)
    ensures k <= |queue|
    ensures k < |queue| ==> queue[k].owner == owner
    ensures forall i :: 0 <= i < k ==> queue[i].owner != owner
  {
    if queue == [] || queue[0].owner == owner then 0 else 1 + Place(queue[1..], owner)
  }

  function Leave(queue: seq<Ticket>, k: nat): seq<Ticket> {
    if k < |queue| then queue[..k] + queue[k + 1..] else queue
  }

  /** The shapes every reachable state has; enough for a step to be carried out. */
  ghost predicate Shaped(c: Config, s: State) {
    && s.workers.Keys == c.tasks.Keys
    && s.active <= s.pending <= c.tasks.Keys
    && c.routes.Keys == c.tasks.Keys
    && forall id :: id in c.tasks ==>
         var w := s.workers[id];
         (Trying(w.pc) ==> w.attempt < |c.routes[id]|) && (w.pc.Storing? ==> id in s.results)
  }

  /** The worker a step resumes, if it resumes one, and why. */
  function Resumes(s: State, step: Step): Option<(string, Trigger)> {
    match step
    case Resume(id) => Some((id, Resumed))
    case TakeSlot(id) => Some((id, Granted))
    case Reply(id, outcome) => Some((id, Answered(outcome)))
    case Cancel(id) => Some((id, Killed))
    case Deliver(_) => if s.queue != [] && s.queue[0].owner.OfWorker? then Some((s.queue[0].owner.id, Heard)) else None
    case _ => None
  }

  /** Once a failure or an interruption is noticed every worker is cancelled, so the next thing it does is to end. */
  predicate Enabled(s: State, step: Step) {
    && !Over(s)
    && (var who := Resumes(s, step);
        who.Some? ==> who.value.0 in s.workers && CanReact(s.workers[who.value.0], who.value.1)
                      && (s.main.Draining? <==> who.value.1.Killed?))
    && match step
       case Resume(_) => true
       case TakeSlot(_) => s.free > 0
       case Reply(_, _) => true
       case Cancel(_) => true
       case Deliver(callback) => s.queue != [] && !callback.Cut?
       case Watch(id) => id in s.workers && Streaming(s.workers[id].pc)
       case Unwatch(k) => k < |s.queue| && s.queue[k].owner.OfWatcher?
       case NextBatch => s.main.Running? && forall id :: id in s.active && id in s.workers ==> s.workers[id].pc.Done?
       case NoticeFailure => s.main.Running? && exists id :: id in s.active && id in s.workers && s.workers[id].pc.Broken?
       case Interrupt => s.main.Running?
       case Settle => s.main.Draining? && forall id :: id in s.active && id in s.workers ==> Ended(s.workers[id].pc)
  }

  /** The call's watcher is alive: until the reply, and after a failed call also while call_finished is delivered. */
  predicate Streaming(pc: Pc) {
    pc.Calling? || (pc.Reporting? && !pc.outcome.Replied?)
  }

  /** A ticket leaves the queue undelivered; the callback of the lock's holder had started and is cut short. */
  function Drop(s: State, k: nat): State {
    s.(queue := Leave(s.queue, k),
       log := if k == 0 && s.queue != [] then s.log + [Delivery(s.queue[0].seqNo, Cut)] else s.log)
  }

  /** The queue and log once the step has released or left the lock, before anything new is posted. */
  function Unlock(s: State, step: Step): State
    requires Enabled(s, step)
  {
    match step
    case Deliver(callback) =>
      s.(queue := Leave(s.queue, 0), log := s.log + [Delivery(s.queue[0].seqNo, callback)])
    case Cancel(id) => Drop(s, Place(s.queue, OfWorker(id)))
    case Unwatch(k) => Drop(s, k)
    case _ => s
  }

  function ReadyIn(c: Config, s: State, pending: set<string>): set<string> {
    set id | id in pending && id in c.tasks && Deps(c.tasks[id]) <= s.results.Keys
  }

  function Launch(workers: map<string, Worker>, ready: set<string>, batch: nat): map<string, Worker> {
    map id | id in workers :: if id in ready then workers[id].(pc := Created, batch := batch) else workers[id]
  }

  /** The values gather returned, written to the results once more. */
  function Regather(s: State): map<string, Json> {
    s.results + map id | id in s.active && id in s.workers && s.workers[id].pc.Done? :: s.workers[id].pc.value
  }

  /** The loop head of run_tasks: drop the finished batch, then start every task that is ready. */
  function Advance(c: Config, before: State): State {
    var s := before.(results := Regather(before));
    var pending := s.pending - s.active;
    var ready := ReadyIn(c, s, pending);
    if pending == {} then s.(main := Completed, active := {}, pending := {})
    else if ready == {} then s.(main := Stopped, active := {}, pending := pending)
    else s.(batch := s.batch + 1, active := ready, pending := pending,
            workers := Launch(s.workers, ready, s.batch + 1))
  }

  function Apply(c: Config, s: State, step: Step): State
    requires Shaped(c, s) && Enabled(s, step)
  {
    var who := Resumes(s, step);
    if who.Some? then
      var (id, trigger) := who.value;
      Carry(Unlock(s, step), id, React(c, id, s.workers[id], s.results, s.spent, trigger))
    else
      match step
      case Watch(id) => Post(s, OfWatcher(id))
      case NextBatch => Advance(c, s)
      case NoticeFailure => s.(main := Draining)
      case Interrupt => s.(main := Draining)
      case Settle => s.(main := Stopped)
      case _ => Unlock(s, step)
  }
}
