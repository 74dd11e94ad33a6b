/** No interleaving gets stuck, and none goes on forever. */
module SchedulerProgress {
  import opened Json
  import opened Layers
  import opened Plans
  import opened Budgets
  import opened Tiers
  import opened Scheduler
  import opened WorkerInvariant
  import opened SchedulerInvariant
  import opened SchedulerRuns
  import opened SchedulerTheorems
  import Sums

  // ---- Something can always happen ----

  /** While events are in line and nothing has failed, the lock holder's callback can end. */
  lemma HolderMoves(s: State)
    requires s.main.Running? && LineOk(s.workers, s.queue) && s.queue != []
    ensures Enabled(s, Deliver(Returned))
  {
  }

  /** A worker inside an attempt can move, or the event in front of its own can. */
  lemma TryingMoves(c: Config, s: State, id: string) returns (step: Step)
    requires s.main.Running? && LineOk(s.workers, s.queue)
    requires id in s.workers && id in c.tasks && id in c.routes && s.workers[id].attempt < |c.routes[id]|
    requires Trying(s.workers[id].pc) && !s.workers[id].pc.Queued?
    ensures !step.Watch? && Enabled(s, step) && Faithful(c, s, step)
  {
    if s.workers[id].pc.Calling? {
      step := Reply(id, AnswerTo(c, id, s.workers[id]));
    } else {
      assert InLine(s.queue, id);
      HolderMoves(s);
      step := Deliver(Returned);
    }
  }

  /** Whoever waits for a slot, its holder never does: holders wait for the model or for the event lock. */
  lemma QueuedMoves(c: Config, s: State, id: string) returns (step: Step)
    requires s.main.Running? && LineOk(s.workers, s.queue) && c.limits.localConcurrency >= 1
    requires s.workers.Keys == c.tasks.Keys == c.routes.Keys && SlotsOk(c, s.workers, s.free)
    requires id in s.workers && s.workers[id].pc.Queued?
    ensures !step.Watch? && Enabled(s, step) && Faithful(c, s, step)
  {
    if s.free > 0 {
      step := TakeSlot(id);
    } else {
      assert Holders(c, s.workers) != {};
      var h :| h in Holders(c, s.workers);
      step := TryingMoves(c, s, h);
    }
  }

  lemma SomethingMoves(c: Config, s: State) returns (step: Step)
    requires !Over(s) && LineOk(s.workers, s.queue) && c.limits.localConcurrency >= 1
    requires s.workers.Keys == c.tasks.Keys == c.routes.Keys && SlotsOk(c, s.workers, s.free)
    requires PhaseOk(c, s.batch, s.active, s.pending, s.workers) && Shaped(c, s)
    ensures !step.Watch? && Enabled(s, step) && Faithful(c, s, step)
  {
    if id :| id in s.active && !Ended(s.workers[id].pc) {
      var pc := s.workers[id].pc;
      if s.main.Draining? {
        step := Cancel(id);
      } else if pc.Created? {
        step := Resume(id);
      } else if pc.Queued? {
        step := QueuedMoves(c, s, id);
      } else {
        step := TryingMoves(c, s, id);
      }
    } else if s.main.Draining? {
      step := Settle;
    } else if id :| id in s.active && s.workers[id].pc.Broken? {
      step := NoticeFailure;
    } else {
      step := NextBatch;
    }
  }

  /** No reachable state that is not final is stuck. */
  lemma NeverStuck(c: Config, s: State) returns (step: Step)
    requires Valid(c) && Reachable(c, s) && !Over(s)
    ensures !step.Watch? && Enabled(s, step) && Shaped(c, s) && Faithful(c, s, step)
  {
    ReachableInv(c, s);
    step := SomethingMoves(c, s);
  }

  // ---- Nothing goes on forever ----

  function Ranks(c: Config, workers: map<string, Worker>): map<string, nat>
    requires workers.Keys == c.tasks.Keys == c.routes.Keys
  {
    map id | id in workers :: Rank(c, id, workers[id])
  }

  function MainRank(main: Main): nat {
    if main.Running? then 2 else if main.Draining? then 1 else 0
  }

  ghost function Measure(c: Config, s: State): nat
    requires s.workers.Keys == c.tasks.Keys == c.routes.Keys
  {
    2 * (Sums.Sum(s.workers.Keys, Ranks(c, s.workers)) + MainRank(s.main)) + |s.queue|
  }

  lemma UnlockShrinks(s: State, step: Step)
    requires Enabled(s, step)
    ensures |Unlock(s, step).queue| <= |s.queue|
  {
  }

  lemma RanksDrop(c: Config, workers: map<string, Worker>, id: string, w: Worker)
    requires workers.Keys == c.tasks.Keys == c.routes.Keys && id in c.tasks && Rank(c, id, w) < Rank(c, id, workers[id])
    ensures workers[id := w].Keys == workers.Keys
    ensures Sums.Sum(workers.Keys, Ranks(c, workers[id := w])) < Sums.Sum(workers.Keys, Ranks(c, workers))
  {
    assert workers[id := w].Keys == workers.Keys;
    Sums.SumChange(workers.Keys, Ranks(c, workers[id := w]), Ranks(c, workers), id);
  }

  lemma ResumedProgresses(c: Config, s: State, step: Step)
    requires Shaped(c, s) && Enabled(s, step) && Resumes(s, step).Some?
    ensures Apply(c, s, step).workers.Keys == c.tasks.Keys
    ensures Measure(c, Apply(c, s, step)) < Measure(c, s)
  {
    var (id, trigger) := Resumes(s, step).value;
    var e := EffectOf(c, s, step);
    ReactProgresses(c, id, s.workers[id], s.results, s.spent, trigger);
    RanksDrop(c, s.workers, id, e.worker);
    UnlockShrinks(s, step);
    ResumedFrame(c, s, step);
  }

  lemma LaunchProgresses(c: Config, workers: map<string, Worker>, ready: set<string>, batch: nat)
    requires workers.Keys == c.tasks.Keys == c.routes.Keys && ready != {}
    requires forall id :: id in ready ==> id in workers && workers[id].pc.Idle?
    ensures Launch(workers, ready, batch).Keys == workers.Keys
    ensures Sums.Sum(workers.Keys, Ranks(c, Launch(workers, ready, batch))) < Sums.Sum(workers.Keys, Ranks(c, workers))
  {
    var k :| k in ready;
    Sums.SumBelow(workers.Keys, Ranks(c, Launch(workers, ready, batch)), Ranks(c, workers), k);
  }

  lemma NextBatchProgresses(c: Config, s: State)
    requires Shaped(c, s) && Enabled(s, NextBatch) && PhaseOk(c, s.batch, s.active, s.pending, s.workers)
    ensures Advance(c, s).workers.Keys == c.tasks.Keys
    ensures Measure(c, Advance(c, s)) < Measure(c, s)
  {
    var ready := ReadyIn(c, s.(results := Regather(s)), s.pending - s.active);
    AdvanceFrame(c, s);
    if s.pending - s.active != {} && ready != {} {
      LaunchProgresses(c, s.workers, ready, s.batch + 1);
    }
  }

  /** Every step but a watcher's brings the run nearer to its end; a watcher sets it back by one. */
  lemma StepProgresses(c: Config, s: State, step: Step)
    requires Shaped(c, s) && Enabled(s, step) && PhaseOk(c, s.batch, s.active, s.pending, s.workers)
    ensures Apply(c, s, step).workers.Keys == c.tasks.Keys
    ensures step.Watch? ==> Measure(c, Apply(c, s, step)) == Measure(c, s) + 1
    ensures !step.Watch? ==> Measure(c, Apply(c, s, step)) < Measure(c, s)
  {
    if Resumes(s, step).Some? {
      ResumedProgresses(c, s, step);
    } else if step.NextBatch? {
      NextBatchProgresses(c, s);
    } else {
      AsideFrame(c, s, step);
    }
  }

  function Watches(steps: seq<Step>): nat {
    if steps == [] then 0 else Watches(steps[..|steps| - 1]) + if steps[|steps| - 1].Watch? then 1 else 0
  }

  lemma StepProgressesInv(c: Config, s: State, step: Step)
    requires Inv(c, s) && Shaped(c, s) && Enabled(s, step)
    ensures Apply(c, s, step).workers.Keys == c.tasks.Keys
    ensures step.Watch? ==> Measure(c, Apply(c, s, step)) == Measure(c, s) + 1
    ensures !step.Watch? ==> Measure(c, Apply(c, s, step)) < Measure(c, s)
  {
    StepProgresses(c, s, step);
  }

  /** The length of any run is bounded by the plan and the number of live-output events. */
  lemma {:induction false} RunsAreFinite(c: Config, steps: seq<Step>)
    requires Valid(c) && Exec(c, steps).Some?
    ensures Exec(c, steps).value.workers.Keys == c.tasks.Keys
    ensures |steps| + Measure(c, Exec(c, steps).value) <= Measure(c, Init(c)) + 2 * Watches(steps)
  {
    if steps != [] {
      var n := |steps| - 1;
      ExecInv(c, steps[..n]);
      RunsAreFinite(c, steps[..n]);
      StepProgressesInv(c, Exec(c, steps[..n]).value, steps[n]);
    }
  }

  lemma OneMoreStep(c: Config, steps: seq<Step>, s: State) returns (step: Step, t: State)
    requires Valid(c) && Exec(c, steps) == Some(s) && s.workers.Keys == c.tasks.Keys && !Over(s)
    ensures Exec(c, steps + [step]) == Some(t) && t.workers.Keys == c.tasks.Keys && Measure(c, t) < Measure(c, s)
    ensures Undisturbed(c, steps) ==> Undisturbed(c, steps + [step])
  {
    step := NeverStuck(c, s);
    t := Apply(c, s, step);
    ReachableInv(c, s);
    StepProgressesInv(c, s, step);
    ExecAppend(c, steps, s, step);
    UndisturbedAppend(c, steps, s, step);
  }

  lemma UndisturbedAppend(c: Config, steps: seq<Step>, s: State, step: Step)
    requires Exec(c, steps) == Some(s) && Faithful(c, s, step)
    ensures Undisturbed(c, steps) ==> Undisturbed(c, steps + [step])
  {
    assert (steps + [step])[..|steps|] == steps;
  }

  lemma Regroup<T>(a: seq<T>, b: seq<T>, c: seq<T>)
    ensures a + b + c == a + (b + c)
    ensures a + [] == a
  {
  }

  /** From every reachable state the run can be brought to its end, without disturbing it. */
  lemma {:induction false} EveryRunCanEnd(c: Config, steps: seq<Step>, s: State) returns (more: seq<Step>, end: State)
    requires Valid(c) && Exec(c, steps) == Some(s) && s.workers.Keys == c.tasks.Keys
    ensures Exec(c, steps + more) == Some(end) && Over(end)
    ensures Undisturbed(c, steps) ==> Undisturbed(c, steps + more)
    decreases Measure(c, s)
  {
    if Over(s) {
      Regroup(steps, [], []);
      return [], s;
    }
    var step, t := OneMoreStep(c, steps, s);
    var rest, last := EveryRunCanEnd(c, steps + [step], t);
    Regroup(steps, [step], rest);
    return [step] + rest, last;
  }
}
