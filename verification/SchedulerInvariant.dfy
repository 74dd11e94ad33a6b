/** What holds in every reachable state of every interleaving, and why each step keeps it. */
module SchedulerInvariant {
  import opened Json
  import opened Layers
  import opened Plans
  import opened Budgets
  import opened Tiers
  import opened Scheduler
  import opened WorkerInvariant

  // ---- Steps that resume a worker ----

  function Who(s: State, step: Step): string
    requires Resumes(s, step).Some?
  {
    Resumes(s, step).value.0
  }

  function EffectOf(c: Config, s: State, step: Step): Effect
    requires Shaped(c, s) && Enabled(s, step) && Resumes(s, step).Some?
  {
    var (id, trigger) := Resumes(s, step).value;
    React(c, id, s.workers[id], s.results, s.spent, trigger)
  }

  ghost predicate WorkersOk(c: Config, workers: map<string, Worker>, results: map<string, Json>) {
    && workers.Keys == c.tasks.Keys == c.routes.Keys
    && results.Keys <= c.tasks.Keys
    && forall id :: id in c.tasks ==> WorkerOk(c, results, id, workers[id])
  }

  lemma WorkersOkShaped(c: Config, s: State)
    requires WorkersOk(c, s.workers, s.results) && s.active <= s.pending <= c.tasks.Keys
    ensures Shaped(c, s)
  {
    forall id | id in c.tasks
      ensures (Trying(s.workers[id].pc) ==> s.workers[id].attempt < |c.routes[id]|)
      ensures (s.workers[id].pc.Storing? ==> id in s.results)
    {
      assert WorkerOk(c, s.results, id, s.workers[id]);
    }
  }

  lemma CarryKeepsWorkers(c: Config, workers: map<string, Worker>, results: map<string, Json>, id: string, e: Effect)
    requires WorkersOk(c, workers, results) && id in c.tasks
    requires WorkerOk(c, Stored(results, id, e), id, e.worker) && Extends(results, Stored(results, id, e))
    ensures WorkersOk(c, workers[id := e.worker], Stored(results, id, e))
  {
    forall other | other in c.tasks && other != id ensures WorkerOk(c, Stored(results, id, e), other, workers[other]) {
      OtherStaysOk(c, workers, results, id, e, other);
    }
  }

  lemma OtherStaysOk(c: Config, workers: map<string, Worker>, results: map<string, Json>, id: string, e: Effect, other: string)
    requires WorkersOk(c, workers, results) && other in c.tasks && other != id && Extends(results, Stored(results, id, e))
    ensures WorkerOk(c, Stored(results, id, e), other, workers[other])
  {
    WorkerOkStable(c, results, Stored(results, id, e), other, workers[other]);
  }

  lemma ResumedKeepsWorkers(c: Config, s: State, step: Step)
    requires WorkersOk(c, s.workers, s.results) && Shaped(c, s) && Enabled(s, step) && Resumes(s, step).Some?
    ensures var t := Apply(c, s, step);
      WorkersOk(c, t.workers, t.results) && Extends(s.results, t.results)
  {
    var (id, trigger) := Resumes(s, step).value;
    var e := EffectOf(c, s, step);
    assert WorkerOk(c, s.results, id, s.workers[id]);
    ReactStores(c, id, s.workers[id], s.results, s.spent, trigger);
    ReactKeeps(c, id, s.workers[id], s.results, s.spent, trigger);
    CarryKeepsWorkers(c, s.workers, s.results, id, e);
  }

  /** Writing the gathered values once more changes nothing. */
  lemma RegatherIdle(c: Config, s: State)
    requires WorkersOk(c, s.workers, s.results)
    ensures Regather(s) == s.results
  {
    forall id | id in s.active && id in s.workers && s.workers[id].pc.Done?
      ensures id in s.results && s.workers[id].pc.value == s.results[id]
    {
      assert WorkerOk(c, s.results, id, s.workers[id]);
    }
  }

  lemma LaunchKeepsWorkers(c: Config, s: State, ready: set<string>, batch: nat)
    requires WorkersOk(c, s.workers, s.results)
    requires forall id :: id in ready ==> id in c.tasks && s.workers[id].pc.Idle? && Deps(c.tasks[id]) <= s.results.Keys
    ensures WorkersOk(c, Launch(s.workers, ready, batch), s.results)
  {
    forall id | id in c.tasks ensures WorkerOk(c, s.results, id, Launch(s.workers, ready, batch)[id]) {
      assert WorkerOk(c, s.results, id, s.workers[id]);
    }
  }

  lemma NextBatchKeepsWorkers(c: Config, s: State)
    requires WorkersOk(c, s.workers, s.results)
    requires forall id :: id in s.pending && id !in s.active ==> id in c.tasks && s.workers[id].pc.Idle?
    ensures var t := Advance(c, s); WorkersOk(c, t.workers, t.results) && t.results == s.results
  {
    RegatherIdle(c, s);
    AdvanceShape(c, s);
    LaunchKeepsWorkers(c, s, ReadyIn(c, s, s.pending - s.active), s.batch + 1);
  }

  lemma AdvanceShape(c: Config, s: State)
    requires Regather(s) == s.results
    ensures var t, ready := Advance(c, s), ReadyIn(c, s, s.pending - s.active);
      t.results == s.results && (t.workers == s.workers || t.workers == Launch(s.workers, ready, s.batch + 1))
  {
  }

  // ---- Local slots ----

  ghost function Holders(c: Config, workers: map<string, Worker>): set<string>
    requires workers.Keys == c.tasks.Keys == c.routes.Keys
  {
    set id | id in c.tasks && Holds(c, id, workers[id])
  }

  /** Slots held and slots free add up to the limit; only local attempts queue for one. */
  ghost predicate SlotsOk(c: Config, workers: map<string, Worker>, free: int)
    requires workers.Keys == c.tasks.Keys == c.routes.Keys
  {
    && free >= 0 && free + |Holders(c, workers)| == c.limits.localConcurrency
    && forall id :: id in c.tasks && workers[id].pc.Queued? && workers[id].attempt < |c.routes[id]| ==>
         c.routes[id][workers[id].attempt] != CLOUD
  }

  lemma HoldersChange(c: Config, workers: map<string, Worker>, id: string, w: Worker)
    requires workers.Keys == c.tasks.Keys == c.routes.Keys && id in c.tasks
    ensures |Holders(c, workers[id := w])| == |Holders(c, workers)| - Bit(Holds(c, id, workers[id])) + Bit(Holds(c, id, w))
  {
    var before, after := Holders(c, workers), Holders(c, workers[id := w]);
    assert before - {id} == after - {id};
    SizeApart(before, id);
    SizeApart(after, id);
  }

  lemma SizeApart<T>(s: set<T>, x: T)
    ensures |s| == |s - {x}| + if x in s then 1 else 0
  {
    if x !in s {
      assert s - {x} == s;
    }
  }

  lemma CarryKeepsSlots(c: Config, workers: map<string, Worker>, free: int, id: string, e: Effect)
    requires workers.Keys == c.tasks.Keys == c.routes.Keys && id in c.tasks && SlotsOk(c, workers, free)
    requires e.slot == Bit(Holds(c, id, workers[id])) - Bit(Holds(c, id, e.worker))
    requires e.worker.pc.Queued? && e.worker.attempt < |c.routes[id]| ==> c.routes[id][e.worker.attempt] != CLOUD
    requires free + e.slot >= 0
    ensures SlotsOk(c, workers[id := e.worker], free + e.slot)
  {
    HoldersChange(c, workers, id, e.worker);
  }

  lemma EffectKeepsSlots(c: Config, s: State, id: string, trigger: Trigger)
    requires Shaped(c, s) && id in c.tasks && CanReact(s.workers[id], trigger) && SlotsOk(c, s.workers, s.free)
    requires trigger.Granted? ==> s.free > 0
    ensures var e := React(c, id, s.workers[id], s.results, s.spent, trigger);
      SlotsOk(c, s.workers[id := e.worker], s.free + e.slot)
  {
    ReactSlots(c, id, s.workers[id], s.results, s.spent, trigger);
    CarryKeepsSlots(c, s.workers, s.free, id, React(c, id, s.workers[id], s.results, s.spent, trigger));
  }

  lemma ResumedKeepsSlots(c: Config, s: State, step: Step)
    requires Shaped(c, s) && Enabled(s, step) && Resumes(s, step).Some? && SlotsOk(c, s.workers, s.free)
    ensures var t := Apply(c, s, step);
      t.workers.Keys == c.tasks.Keys && SlotsOk(c, t.workers, t.free)
  {
    var (id, trigger) := Resumes(s, step).value;
    EffectKeepsSlots(c, s, id, trigger);
    ResumedChanges(c, s, step);
  }

  /** What a resumption does to the workers and the slots. */
  lemma ResumedChanges(c: Config, s: State, step: Step)
    requires Shaped(c, s) && Enabled(s, step) && Resumes(s, step).Some?
    ensures var t, e := Apply(c, s, step), EffectOf(c, s, step);
      t.workers == s.workers[Who(s, step) := e.worker] && t.free == s.free + e.slot
  {
    CarryFrame(Unlock(s, step), Who(s, step), EffectOf(c, s, step));
  }

  /** What carrying out an effect changes. */
  lemma CarryFrame(s: State, id: string, e: Effect)
    ensures var t := Carry(s, id, e);
      && t.main == s.main && t.batch == s.batch && t.active == s.active && t.pending == s.pending
      && t.workers == s.workers[id := e.worker] && t.results == Stored(s.results, id, e) && t.free == s.free + e.slot
  {
  }

  lemma LaunchKeepsSlots(c: Config, s: State, ready: set<string>, batch: nat)
    requires s.workers.Keys == c.tasks.Keys == c.routes.Keys && SlotsOk(c, s.workers, s.free)
    requires forall id :: id in ready && id in s.workers ==> s.workers[id].pc.Idle?
    ensures SlotsOk(c, Launch(s.workers, ready, batch), s.free)
  {
    assert Holders(c, Launch(s.workers, ready, batch)) == Holders(c, s.workers);
  }

  // ---- The event lock ----

  ghost predicate InLine(queue: seq<Ticket>, id: string) {
    exists i :: 0 <= i < |queue| && queue[i].owner == OfWorker(id)
  }

  /** A worker has one event in line while it waits for one, and none otherwise. */
  ghost predicate LineOk(workers: map<string, Worker>, queue: seq<Ticket>) {
    && (forall i :: 0 <= i < |queue| && queue[i].owner.OfWorker? ==>
          queue[i].owner.id in workers && Waiting(workers[queue[i].owner.id].pc))
    && (forall i, j :: 0 <= i < j < |queue| && queue[i].owner.OfWorker? ==> queue[i].owner != queue[j].owner)
    && (forall id :: id in workers && Waiting(workers[id].pc) ==> InLine(queue, id))
  }

  /** The same queue with the tickets of one worker, waiting or not, taken out. */
  ghost predicate LineWithout(workers: map<string, Worker>, queue: seq<Ticket>, id: string) {
    && (forall i :: 0 <= i < |queue| && queue[i].owner.OfWorker? ==>
          queue[i].owner.id in workers && queue[i].owner.id != id && Waiting(workers[queue[i].owner.id].pc))
    && (forall i, j :: 0 <= i < j < |queue| && queue[i].owner.OfWorker? ==> queue[i].owner != queue[j].owner)
    && (forall other :: other in workers && other != id && Waiting(workers[other].pc) ==> InLine(queue, other))
  }

  lemma PopOrder(log: seq<Delivery>, queue: seq<Ticket>, seqNo: nat, callback: Callback)
    requires InOrder(log, queue, seqNo) && queue != []
    ensures InOrder(log + [Delivery(queue[0].seqNo, callback)], Leave(queue, 0), seqNo)
  {
    var log' := log + [Delivery(queue[0].seqNo, callback)];
    assert LogNumbers(log') + Numbers(Leave(queue, 0)) == LogNumbers(log) + Numbers(queue);
  }

  lemma PushOrder(log: seq<Delivery>, queue: seq<Ticket>, seqNo: nat, owner: Owner)
    requires InOrder(log, queue, seqNo)
    ensures InOrder(log, queue + [Ticket(seqNo + 1, owner)], seqNo + 1)
  {
    var queue' := queue + [Ticket(seqNo + 1, owner)];
    assert Numbers(queue') == Numbers(queue) + [seqNo + 1];
    assert LogNumbers(log) + Numbers(queue') == (LogNumbers(log) + Numbers(queue)) + [seqNo + 1];
  }

  lemma LeaveOrder(log: seq<Delivery>, queue: seq<Ticket>, seqNo: nat, k: nat)
    requires InOrder(log, queue, seqNo)
    ensures InOrder(log, Leave(queue, k), seqNo)
  {
    var queue' := Leave(queue, k);
    var all, all' := LogNumbers(log) + Numbers(queue), LogNumbers(log) + Numbers(queue');
    forall i | 0 <= i < |all'| ensures all'[i] == all[if i < |log| + k then i else i + 1] {
    }
  }

  lemma DropOrder(s: State, k: nat)
    requires InOrder(s.log, s.queue, s.seqNo)
    ensures InOrder(Drop(s, k).log, Drop(s, k).queue, s.seqNo)
  {
    if k == 0 && s.queue != [] {
      PopOrder(s.log, s.queue, s.seqNo, Cut);
    } else {
      LeaveOrder(s.log, s.queue, s.seqNo, k);
    }
  }

  /** Taking a ticket out leaves everyone else in line. */
  lemma LeaveLine(workers: map<string, Worker>, queue: seq<Ticket>, k: nat)
    requires LineOk(workers, queue) && k < |queue|
    ensures queue[k].owner.OfWorker? ==> LineWithout(workers, Leave(queue, k), queue[k].owner.id)
    ensures queue[k].owner.OfWatcher? ==> LineOk(workers, Leave(queue, k))
  {
    var rest := Leave(queue, k);
    forall i | 0 <= i < |rest| ensures rest[i] == queue[if i < k then i else i + 1] {
    }
    forall other | other in workers && Waiting(workers[other].pc) && queue[k].owner != OfWorker(other)
      ensures InLine(rest, other)
    {
      var i :| 0 <= i < |queue| && queue[i].owner == OfWorker(other);
      assert rest[if i < k then i else i - 1].owner == OfWorker(other);
    }
  }

  /** The resumed worker rejoins the line exactly if it now waits for an event. */
  lemma RejoinLine(workers: map<string, Worker>, queue: seq<Ticket>, id: string, w: Worker, number: nat)
    requires LineWithout(workers, queue, id) && id in workers
    ensures LineOk(workers[id := w], if Waiting(w.pc) then queue + [Ticket(number, OfWorker(id))] else queue)
  {
    var queue' := if Waiting(w.pc) then queue + [Ticket(number, OfWorker(id))] else queue;
    forall other | other in workers && Waiting(workers[id := w][other].pc) ensures InLine(queue', other) {
      if other == id {
        assert queue'[|queue|].owner == OfWorker(id);
      } else {
        var i :| 0 <= i < |queue| && queue[i].owner == OfWorker(other);
        assert queue'[i].owner == OfWorker(other);
      }
    }
  }

  /** A worker that is not waiting has no ticket to take out. */
  lemma NoTicket(workers: map<string, Worker>, queue: seq<Ticket>, id: string)
    requires LineOk(workers, queue) && id in workers && !Waiting(workers[id].pc)
    ensures LineWithout(workers, queue, id)
  {
  }

  lemma UnlockOk(c: Config, s: State, step: Step)
    requires Shaped(c, s) && Enabled(s, step) && Resumes(s, step).Some?
    requires LineOk(s.workers, s.queue) && InOrder(s.log, s.queue, s.seqNo)
    ensures var u := Unlock(s, step);
      LineWithout(s.workers, u.queue, Who(s, step)) && InOrder(u.log, u.queue, u.seqNo)
  {
    match step
    case Deliver(callback) =>
      PopOrder(s.log, s.queue, s.seqNo, callback);
      LeaveLine(s.workers, s.queue, 0);
    case Cancel(id) =>
      DropOrder(s, Place(s.queue, OfWorker(id)));
      DropLine(s, id);
    case Resume(id) => NoTicket(s.workers, s.queue, id);
    case TakeSlot(id) => NoTicket(s.workers, s.queue, id);
    case Reply(id, _) => NoTicket(s.workers, s.queue, id);
    case _ =>
  }

  lemma DropLine(s: State, id: string)
    requires LineOk(s.workers, s.queue) && id in s.workers
    ensures LineWithout(s.workers, Drop(s, Place(s.queue, OfWorker(id))).queue, id)
  {
    var k := Place(s.queue, OfWorker(id));
    if k < |s.queue| {
      LeaveLine(s.workers, s.queue, k);
    } else {
      assert !InLine(s.queue, id);
      NoTicket(s.workers, s.queue, id);
    }
  }

  lemma CarryKeepsTickets(s: State, id: string, e: Effect)
    requires LineWithout(s.workers, s.queue, id) && id in s.workers && e.posts == Waiting(e.worker.pc)
    ensures LineOk(Carry(s, id, e).workers, Carry(s, id, e).queue)
  {
    RejoinLine(s.workers, s.queue, id, e.worker, s.seqNo + 1);
  }

  lemma CarryKeepsOrder(s: State, id: string, e: Effect)
    requires InOrder(s.log, s.queue, s.seqNo)
    ensures InOrder(Carry(s, id, e).log, Carry(s, id, e).queue, Carry(s, id, e).seqNo)
  {
    PushOrder(s.log, s.queue, s.seqNo, OfWorker(id));
  }

  lemma ResumedKeepsLine(c: Config, s: State, step: Step)
    requires Shaped(c, s) && Enabled(s, step) && Resumes(s, step).Some?
    requires LineOk(s.workers, s.queue) && InOrder(s.log, s.queue, s.seqNo)
    ensures var t := Apply(c, s, step);
      LineOk(t.workers, t.queue) && InOrder(t.log, t.queue, t.seqNo)
  {
    var (id, trigger) := Resumes(s, step).value;
    UnlockOk(c, s, step);
    ReactPosts(c, id, s.workers[id], s.results, s.spent, trigger);
    CarryKeepsTickets(Unlock(s, step), id, EffectOf(c, s, step));
    CarryKeepsOrder(Unlock(s, step), id, EffectOf(c, s, step));
  }

  lemma LaunchKeepsLine(workers: map<string, Worker>, queue: seq<Ticket>, ready: set<string>, batch: nat)
    requires LineOk(workers, queue)
    requires forall id :: id in ready && id in workers ==> workers[id].pc.Idle?
    ensures LineOk(Launch(workers, ready, batch), queue)
  {
  }

  lemma WatchKeepsLine(workers: map<string, Worker>, queue: seq<Ticket>, number: nat, id: string)
    requires LineOk(workers, queue)
    ensures LineOk(workers, queue + [Ticket(number, OfWatcher(id))])
  {
    var queue' := queue + [Ticket(number, OfWatcher(id))];
    forall other | other in workers && Waiting(workers[other].pc) ensures InLine(queue', other) {
      var i :| 0 <= i < |queue| && queue[i].owner == OfWorker(other);
      assert queue'[i].owner == OfWorker(other);
    }
  }
}
