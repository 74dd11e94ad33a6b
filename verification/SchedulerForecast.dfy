/**
 When a plan completes. From the replies the models would give, every task's value and the cloud calls it needs can be
 foretold before anything runs; an undisturbed run completes exactly if such a forecast exists and the budget covers it.
 */
module SchedulerForecast {
  import opened Json
  import opened Layers
  import opened Plans
  import opened Budgets
  import opened Scheduler
  import opened WorkerInvariant
  import opened SchedulerRuns
  import opened SchedulerTheorems
  import opened SchedulerProgress
  import opened SchedulerDeterminism
  import Sums

  /** What the task comes to when its dependencies have these values. */
  function Fate(c: Config, values: map<string, Json>, id: string): Forecast
    requires id in c.tasks && id in c.routes && AllResolve(c.tasks[id], c.sources, values)
  {
    Full(c, id, InputsOf(c.tasks[id], c.sources, values))
  }

  ghost predicate ForetoldAt(c: Config, values: map<string, Json>, id: string)
    requires id in c.tasks && id in c.routes
  {
    && AllResolve(c.tasks[id], c.sources, values) && id in values
    && Fate(c, values, id).result == Some(values[id])
  }

  /** Every task's value is what its worker makes of the values of its dependencies. */
  ghost predicate Foretold(c: Config, values: map<string, Json>) {
    values.Keys == c.tasks.Keys == c.routes.Keys && forall id :: id in c.tasks ==> ForetoldAt(c, values, id)
  }

  ghost function Demands(c: Config, values: map<string, Json>): map<string, nat>
    requires Foretold(c, values)
  {
    map id | id in c.tasks && ForetoldAt(c, values, id) :: Fate(c, values, id).demand
  }

  ghost function Total(c: Config, values: map<string, Json>): nat
    requires Foretold(c, values)
  {
    Sums.Sum(c.tasks.Keys, Demands(c, values))
  }

  /** The budget covers this many more cloud calls by workers, and the last call besides. */
  predicate Covers(c: Config, total: nat) {
    total == 0 || (c.limits.cloudEnabled && c.spent.calls + total < c.limits.cloudCalls
                   && c.spent.workerCalls + total <= c.limits.cloudWorkerCalls)
  }

  // ---- A completed run was foretold ----

  lemma DoneIsForetold(c: Config, s: State, id: string)
    requires AllTold(c, s) && AllDone(c, s) && id in c.tasks && Foreseen(c, s.results, id, s.workers[id])
    ensures ForetoldAt(c, s.results, id) && Fate(c, s.results, id).demand == s.workers[id].charged
  {
    assert Told(c, s, id);
    ChargedAsForeseen(c, s.results, id, s.workers[id]);
  }

  lemma DoneWasForetold(c: Config, s: State)
    requires AllTold(c, s) && AllDone(c, s) && AllForeseen(c, s) && s.results.Keys <= c.tasks.Keys
    ensures Foretold(c, s.results)
    ensures forall id :: id in c.tasks ==> ForetoldAt(c, s.results, id) && Fate(c, s.results, id).demand == s.workers[id].charged
  {
    forall id | id in c.tasks
      ensures ForetoldAt(c, s.results, id) && Fate(c, s.results, id).demand == s.workers[id].charged
    {
      assert Foreseen(c, s.results, id, s.workers[id]);
      DoneIsForetold(c, s, id);
    }
  }

  lemma DemandsAreCharges(c: Config, values: map<string, Json>, workers: map<string, Worker>)
    requires Foretold(c, values) && workers.Keys == c.tasks.Keys
    requires forall id :: id in c.tasks ==> ForetoldAt(c, values, id) && Fate(c, values, id).demand == workers[id].charged
    ensures Demands(c, values) == Charges(workers)
  {
  }

  lemma ChargedIsCovered(c: Config, workers: map<string, Worker>, spent: Spent)
    requires BudgetOk(c, workers, spent)
    ensures Covers(c, Sums.Sum(workers.Keys, Charges(workers)))
  {
  }

  /** The results of a completed undisturbed run are a forecast, and the budget covered it. */
  lemma CompletedWasForetold(c: Config, steps: seq<Step>, s: State)
    requires Valid(c) && Undisturbed(c, steps) && Exec(c, steps) == Some(s) && s.main.Completed?
    ensures Foretold(c, s.results) && Covers(c, Total(c, s.results))
  {
    UndisturbedIsComparable(c, steps, s);
    ValidIsSound(c);
    ComparableWasForetold(c, s);
  }

  lemma ComparableWasForetold(c: Config, s: State)
    requires Comparable(c, s) && Closed(GraphIn(c)) && s.main.Completed?
    ensures Foretold(c, s.results) && Covers(c, Total(c, s.results))
  {
    CompletedIsDone(c, s);
    DoneWasForetold(c, s);
    DemandsAreCharges(c, s.results, s.workers);
    ChargedIsCovered(c, s.workers, s.spent);
  }

  // ---- A foretold plan completes ----

  /** These tasks come before all others, each after its dependencies. */
  ghost predicate Ordered(g: Graph, placed: map<string, nat>) {
    && placed.Keys <= g.Keys
    && forall t :: t in placed ==> placed[t] < |placed.Keys| && OrderedAt(g, placed, t)
  }

  ghost predicate OrderedAt(g: Graph, placed: map<string, nat>, t: string)
    requires t in placed && t in g
  {
    forall d :: d in g[t] ==> d in placed && placed[d] < placed[t]
  }

  lemma PlaceNext(g: Graph, placed: map<string, nat>, t: string)
    requires Ordered(g, placed) && t in g && t !in placed && g[t] <= placed.Keys
    ensures var next := placed[t := |placed.Keys|];
      Ordered(g, next) && |g.Keys - next.Keys| < |g.Keys - placed.Keys|
  {
    var next := placed[t := |placed.Keys|];
    assert next.Keys == placed.Keys + {t};
    assert g.Keys - next.Keys == (g.Keys - placed.Keys) - {t};
    forall x | x in next ensures next[x] < |next.Keys| && OrderedAt(g, next, x) {
      if x != t {
        assert OrderedAt(g, placed, x);
      }
    }
  }

  /** An acyclic graph can be put in an order. */
  lemma {:induction false} SomeRanking(g: Graph, placed: map<string, nat>) returns (rank: map<string, nat>)
    requires Closed(g) && Acyclic(g) && Ordered(g, placed)
    ensures IsRanking(g, rank)
    decreases |g.Keys - placed.Keys|
  {
    if placed.Keys == g.Keys {
      rank := placed;
      forall t, d | t in g && d in g[t] ensures rank[d] < rank[t] {
        assert OrderedAt(g, placed, t);
      }
    } else {
      SomethingIsReady(g, placed.Keys);
      var t :| t in Ready(g, placed.Keys);
      PlaceNext(g, placed, t);
      rank := SomeRanking(g, placed[t := |placed.Keys|]);
    }
  }

  lemma AcyclicHasRanking(g: Graph) returns (rank: map<string, nat>)
    requires Closed(g) && Acyclic(g)
    ensures IsRanking(g, rank)
  {
    rank := SomeRanking(g, map[]);
  }

  ghost function IdealWorker(c: Config, values: map<string, Json>, rank: map<string, nat>, id: string): Worker
    requires id in c.tasks && id in c.routes && id in rank && ForetoldAt(c, values, id)
  {
    Worker(Done(values[id]), 0, InputsOf(c.tasks[id], c.sources, values), [], rank[id],
           Fate(c, values, id).calls, Fate(c, values, id).demand)
  }

  /** The state a foretold run would end in; whether any run reaches it is to be shown. */
  ghost function Ideal(c: Config, values: map<string, Json>, rank: map<string, nat>): State
    requires Foretold(c, values) && rank.Keys == c.tasks.Keys
  {
    var total := Total(c, values);
    Init(c).(workers := map id | id in c.tasks && ForetoldAt(c, values, id) :: IdealWorker(c, values, rank, id),
             results := values,
             spent := Spent(c.spent.calls + total, c.spent.workerCalls + total))
  }

  lemma IdealWorkers(c: Config, values: map<string, Json>, rank: map<string, nat>)
    requires Foretold(c, values) && rank.Keys == c.tasks.Keys
    ensures var s := Ideal(c, values, rank);
      && s.workers.Keys == c.tasks.Keys && s.results == values
      && forall id :: id in c.tasks ==> ForetoldAt(c, values, id) && s.workers[id] == IdealWorker(c, values, rank, id)
  {
  }

  lemma IdealIsDone(c: Config, values: map<string, Json>, rank: map<string, nat>, s: State)
    requires Foretold(c, values) && Closed(GraphIn(c)) && IsRanking(GraphIn(c), rank) && s.workers.Keys == c.tasks.Keys
    requires forall id :: id in c.tasks ==> s.workers[id].pc.Done? && s.workers[id].batch == rank[id]
    ensures AllDone(c, s)
  {
    forall id, d | id in c.tasks && d in Deps(c.tasks[id]) ensures d in c.tasks && s.workers[d].batch < s.workers[id].batch {
      assert d in GraphIn(c)[id] && d in GraphIn(c);
    }
  }

  lemma IdealAllDone(c: Config, values: map<string, Json>, rank: map<string, nat>)
    requires Foretold(c, values) && Closed(GraphIn(c)) && IsRanking(GraphIn(c), rank)
    ensures AllDone(c, Ideal(c, values, rank)) && Ideal(c, values, rank).results == values
  {
    IdealWorkers(c, values, rank);
    IdealIsDone(c, values, rank, Ideal(c, values, rank));
  }

  lemma IdealIsToldAt(c: Config, values: map<string, Json>, rank: map<string, nat>, s: State, id: string)
    requires id in c.tasks && id in c.routes && id in rank && ForetoldAt(c, values, id) && s.results == values
    requires id in s.workers && s.workers[id] == IdealWorker(c, values, rank, id)
    requires forall d :: d in Deps(c.tasks[id]) ==> Finished(s, d)
    ensures Told(c, s, id) && Foreseen(c, s.results, id, s.workers[id])
  {
  }

  lemma DoneDeps(c: Config, s: State, id: string)
    requires AllDone(c, s) && id in c.tasks
    ensures forall d :: d in Deps(c.tasks[id]) ==> Finished(s, d)
  {
  }

  lemma IdealIsTold(c: Config, values: map<string, Json>, rank: map<string, nat>)
    requires Foretold(c, values) && rank.Keys == c.tasks.Keys && AllDone(c, Ideal(c, values, rank))
    ensures AllTold(c, Ideal(c, values, rank)) && AllForeseen(c, Ideal(c, values, rank))
  {
    IdealWorkers(c, values, rank);
    var s := Ideal(c, values, rank);
    forall id | id in c.tasks ensures Told(c, s, id) && Foreseen(c, s.results, id, s.workers[id]) {
      DoneDeps(c, s, id);
      IdealIsToldAt(c, values, rank, s, id);
    }
  }

  lemma IdealIsPaid(c: Config, values: map<string, Json>, rank: map<string, nat>)
    requires Foretold(c, values) && rank.Keys == c.tasks.Keys && Covers(c, Total(c, values)) && Reserved(c.limits, c.spent)
    ensures BudgetOk(c, Ideal(c, values, rank).workers, Ideal(c, values, rank).spent)
  {
    var s := Ideal(c, values, rank);
    IdealWorkers(c, values, rank);
    DemandsAreCharges(c, values, s.workers);
    PaidFor(c, s.workers, s.spent);
  }

  lemma PaidFor(c: Config, workers: map<string, Worker>, spent: Spent)
    requires Covers(c, Sums.Sum(workers.Keys, Charges(workers))) && Reserved(c.limits, c.spent)
    requires spent.calls == c.spent.calls + Sums.Sum(workers.Keys, Charges(workers))
    requires spent.workerCalls == c.spent.workerCalls + Sums.Sum(workers.Keys, Charges(workers))
    requires forall id :: id in workers ==> workers[id].pc.Done?
    ensures BudgetOk(c, workers, spent)
  {
  }

  lemma IdealIsReference(c: Config, values: map<string, Json>, rank: map<string, nat>)
    requires Foretold(c, values) && Closed(GraphIn(c)) && IsRanking(GraphIn(c), rank)
    requires Covers(c, Total(c, values)) && Reserved(c.limits, c.spent)
    ensures Reference(c, Ideal(c, values, rank)) && Ideal(c, values, rank).results == values
  {
    IdealAllDone(c, values, rank);
    IdealIsTold(c, values, rank);
    IdealIsPaid(c, values, rank);
  }

  lemma SomeReference(c: Config, values: map<string, Json>) returns (done: State)
    requires SoundGraph(c) && Foretold(c, values) && Covers(c, Total(c, values)) && Reserved(c.limits, c.spent)
    ensures Reference(c, done) && done.results == values
  {
    var rank := AcyclicHasRanking(GraphIn(c));
    done := Ideal(c, values, rank);
    IdealIsReference(c, values, rank);
  }

  /** Nothing fails, every stored value is the foretold one, and a run that is over has completed with all of them. */
  ghost predicate AsForetold(values: map<string, Json>, s: State) {
    && !s.main.Draining? && !s.main.Stopped?
    && (forall id :: id in s.workers ==> !s.workers[id].pc.Broken?)
    && (forall id :: id in s.results ==> id in values && s.results[id] == values[id])
    && (Over(s) ==> s.main.Completed? && s.results == values)
  }

  lemma MatchesForetold(c: Config, done: State, s: State)
    requires Matches(c, done, s)
    ensures AsForetold(done.results, s)
  {
  }

  /** A forecast that the budget covers comes true in every undisturbed run. */
  lemma ForetoldComesTrue(c: Config, values: map<string, Json>, steps: seq<Step>, s: State)
    requires Valid(c) && Foretold(c, values) && Covers(c, Total(c, values))
    requires Undisturbed(c, steps) && Exec(c, steps) == Some(s)
    ensures AsForetold(values, s)
  {
    ValidIsSound(c);
    ValidRefs(c);
    UndisturbedIsComparable(c, steps, s);
    var done := SomeReference(c, values);
    ComparableMatch(c, done, s);
    MatchesForetold(c, done, s);
  }

  ghost predicate Completes(c: Config, steps: seq<Step>) {
    Undisturbed(c, steps) && Exec(c, steps).Some? && Exec(c, steps).value.main.Completed?
  }

  /** A plan can be completed undisturbed exactly if a forecast exists that the budget covers. */
  lemma CompletesIffForetold(c: Config)
    requires Valid(c)
    ensures (exists steps :: Completes(c, steps)) <==> exists values :: Foretold(c, values) && Covers(c, Total(c, values))
  {
    if steps :| Completes(c, steps) {
      CompletedWasForetold(c, steps, Exec(c, steps).value);
    }
    if values :| Foretold(c, values) && Covers(c, Total(c, values)) {
      var steps, s := SomeEnd(c);
      ForetoldComesTrue(c, values, steps, s);
      assert Completes(c, steps);
    }
  }

  lemma SomeEnd(c: Config) returns (steps: seq<Step>, s: State)
    requires Valid(c)
    ensures Undisturbed(c, steps) && Exec(c, steps) == Some(s) && Over(s)
  {
    assert Exec(c, []) == Some(Init(c));
    var more, end := EveryRunCanEnd(c, [], Init(c));
    assert [] + more == more;
    steps, s := more, end;
  }
}
