/** From an accepted plan to its runs: one layering, resolvable inputs, exact partitions. */
module EndToEnd {
  import opened Json
  import opened Layers
  import opened Plans
  import opened Budgets
  import opened Tiers
  import opened Scheduler
  import opened WorkerInvariant
  import opened SchedulerInvariant
  import opened SchedulerRuns
  import opened SchedulerTheorems
  import opened SchedulerDeterminism
  import Graphs
  import Results

  // ---- The scheduler's configuration for a plan ----

  function ById(tasks: seq<Task>): map<string, Task>
    requires Distinct(Ids(tasks))
  {
    map i | 0 <= i < |tasks| :: Ids(tasks)[i] := tasks[i]
  }

  lemma ByIdTasks(tasks: seq<Task>)
    requires Distinct(Ids(tasks))
    ensures ById(tasks).Keys == Elements(Ids(tasks))
    ensures forall i :: 0 <= i < |tasks| ==> tasks[i].id in ById(tasks) && ById(tasks)[tasks[i].id] == tasks[i]
  {
    forall i | 0 <= i < |tasks| ensures tasks[i].id in ById(tasks) && ById(tasks)[tasks[i].id] == tasks[i] {
      assert Ids(tasks)[i] == tasks[i].id;
    }
  }

  /** What execute hands to run_tasks. */
  function Configure(tasks: seq<Task>, sources: map<string, string>, tiers: seq<string>, limits: Limits,
                     attempts: nat, escalate: bool, spent: Spent, records: seq<Record>, line: Line,
                     provider: (string, Payload) -> Outcome): Config
    requires Distinct(Ids(tasks)) && forall i :: 0 <= i < |tasks| ==> tasks[i].preferredTier in tiers
  {
    var byId := ById(tasks);
    ByIdTasks(tasks);
    assert forall id :: id in byId ==> byId[id].preferredTier in tiers by {
      forall id | id in byId ensures byId[id].preferredTier in tiers {
        var i :| 0 <= i < |tasks| && Ids(tasks)[i] == id;
        assert byId[tasks[i].id] == tasks[i];
      }
    }
    Config(byId, sources, tiers, limits, attempts, escalate,
           map id | id in byId :: WorkerTiers(byId[id].preferredTier, tiers, attempts, escalate),
           Results.ValidationError, spent, records, line, provider)
  }

  /** The configuration was made for these tasks. */
  ghost predicate MadeFor(c: Config, tasks: seq<Task>) {
    Distinct(Ids(tasks)) && c.tasks == ById(tasks) && c.validate == Results.ValidationError
  }

  lemma TaskWithId(tasks: seq<Task>, id: string) returns (i: nat)
    requires Distinct(Ids(tasks)) && id in ById(tasks)
    ensures i < |tasks| && tasks[i].id == id && ById(tasks)[id] == tasks[i]
  {
    ByIdTasks(tasks);
    i :| 0 <= i < |tasks| && Ids(tasks)[i] == id;
  }

  lemma SameKeys(tasks: seq<Task>)
    requires Distinct(Ids(tasks))
    ensures ById(tasks).Keys == GraphOf(tasks).Keys
  {
    GraphOfTasks(tasks);
    ByIdTasks(tasks);
  }

  lemma SameDeps(tasks: seq<Task>, id: string)
    requires Distinct(Ids(tasks)) && id in ById(tasks)
    ensures id in GraphOf(tasks) && GraphOf(tasks)[id] == Deps(ById(tasks)[id])
  {
    GraphOfTasks(tasks);
    var i := TaskWithId(tasks, id);
  }

  lemma SameGraph(c: Config, tasks: seq<Task>)
    requires MadeFor(c, tasks)
    ensures GraphIn(c) == GraphOf(tasks)
  {
    SameKeys(tasks);
    forall id | id in ById(tasks) ensures GraphOf(tasks)[id] == Deps(ById(tasks)[id]) {
      SameDeps(tasks, id);
    }
  }

  lemma TasksAreValid(c: Config, tasks: seq<Task>)
    requires MadeFor(c, tasks) && WellFormed(tasks, c.sources, c.tiers)
    ensures forall id :: id in c.tasks ==> ValidTask(c, id, c.tasks[id])
  {
    ByIdTasks(tasks);
    forall id | id in c.tasks ensures ValidTask(c, id, c.tasks[id]) {
      var i := TaskWithId(tasks, id);
    }
  }

  /** Whatever parse accepts, the scheduler can be started on. */
  lemma AcceptedIsValid(c: Config, plan: Plan, maxTasks: nat)
    requires MadeFor(c, plan.tasks) && Accepted(plan, c.sources, maxTasks, c.tiers)
    requires Ladder(c.tiers) && c.workerAttempts >= 1 && ValidLimits(c.limits) && Reserved(c.limits, c.spent)
    requires CloudRecords(c.records) == c.spent.calls && c.routes.Keys == c.tasks.Keys
    requires Orderly(c.line) && WatchersOnly(c.line.queue)
    requires forall id :: id in c.tasks && c.tasks[id].preferredTier in c.tiers ==> c.routes[id] == TiersFor(c, id)
    ensures Valid(c) && |c.tasks.Keys| == |plan.tasks|
  {
    TasksAreValid(c, plan.tasks);
    SameGraph(c, plan.tasks);
    ByIdTasks(plan.tasks);
    GraphOfTasks(plan.tasks);
    assert plan.tasks[0].id in c.tasks;
    forall id | id in c.tasks ensures c.tasks[id].preferredTier in c.tiers {
      assert ValidTask(c, id, c.tasks[id]);
    }
  }

  // ---- One layering ----

  /**
   The round in which parse resolves a task, the depth the decision graph assigns to it and the batch in
   which a completed run has run it are the same number, the length of the longest dependency path to it.
   */
  lemma ThreeLayeringsAgree(c: Config, tasks: seq<Task>, s: State, parsed: map<string, nat>, drawn: map<string, nat>)
    requires MadeFor(c, tasks) && Valid(c) && Reachable(c, s) && s.main.Completed?
    requires IsLayering(GraphOf(tasks), parsed)  // what PeelLayers returns
    requires IsLayering(GraphOf(tasks), drawn)   // what Graphs.Depths returns
    ensures parsed == drawn == Rounds(c, s.workers, {})
  {
    SameGraph(c, tasks);
    BatchesAreLayers(c, s);
    LayeringUnique(GraphOf(tasks), parsed, drawn);
    LayeringUnique(GraphOf(tasks), parsed, Rounds(c, s.workers, {}));
  }

  /** The same, on what the two loops actually compute. */
  method CompareLayerings(c: Config, tasks: seq<Task>, ghost s: State) returns (rounds: map<string, nat>)
    requires MadeFor(c, tasks) && Valid(c) && Reachable(c, s) && s.main.Completed? && Closed(GraphOf(tasks))
    ensures rounds == Rounds(c, s.workers, {}) && IsLayering(GraphOf(tasks), rounds)
  {
    SameGraph(c, tasks);
    var acyclic, parsed := PeelLayers(tasks);
    rounds := Graphs.Depths(tasks);
    ThreeLayeringsAgree(c, tasks, s, parsed, rounds);
  }

  // ---- Inputs resolve ----

  lemma StartedFacts(c: Config, s: State, id: string)
    requires WorkersOk(c, s.workers, s.results) && id in c.tasks && Started(s, id)
    ensures Deps(c.tasks[id]) <= s.results.Keys
    ensures Informed(s.workers[id]) ==> AllResolve(c.tasks[id], c.sources, s.results)
  {
    assert WorkerOk(c, s.results, id, s.workers[id]);
  }

  /**
   A started worker's references all resolve exactly if none is the bare name "sources". A plan can only
   contain that one when a source has the empty name, and such a task never makes a call.
   */
  lemma InputsResolveIff(c: Config, s: State, id: string)
    requires Valid(c) && Reachable(c, s) && id in c.tasks && Started(s, id)
    ensures AllResolve(c.tasks[id], c.sources, s.results) <==> Results.SOURCES !in c.tasks[id].inputRefs
    ensures Results.SOURCES in c.tasks[id].inputRefs ==> "" in c.sources && !Informed(s.workers[id])
  {
    ReachableInv(c, s);
    StartedFacts(c, s, id);
    UnresolvedIsBare(c, s.results, id);
    BareNeedsEmptyName(c, id);
  }

  lemma BareNeedsEmptyName(c: Config, id: string)
    requires Valid(c) && id in c.tasks
    ensures Results.SOURCES in c.tasks[id].inputRefs ==> "" in c.sources
  {
    assert ValidTask(c, id, c.tasks[id]);
    if Results.SOURCES in c.tasks[id].inputRefs {
      var i :| 0 <= i < |c.tasks[id].inputRefs| && c.tasks[id].inputRefs[i] == Results.SOURCES;
      assert RefOk(Results.SOURCES, c.tasks[id], c.sources);
      PartitionJoins(Results.SOURCES);
      assert '.' !in Results.SOURCES;
    }
  }

  /** One input for each reference: the text of the source, or the stored result, that it names. */
  ghost predicate Given(task: Task, sources: map<string, string>, results: map<string, Json>, inputs: Results.Inputs, key: string) {
    && inputs.Keys == Elements(task.inputRefs)
    && ("sources." + key in inputs ==> key in sources && inputs["sources." + key] == JStr(sources[key]))
    && ("results." + key in inputs ==> key in results && inputs["results." + key] == results[key])
  }

  lemma InputsSpelled(task: Task, sources: map<string, string>, results: map<string, Json>, key: string)
    requires AllResolve(task, sources, results)
    ensures Given(task, sources, results, InputsOf(task, sources, results), key)
  {
    PartitionDotted(Results.SOURCES, key);
    PartitionDotted(Results.RESULTS, key);
    assert "sources." + key == Results.SOURCES + "." + key && "results." + key == Results.RESULTS + "." + key;
    forall ref | ref in task.inputRefs ensures Resolves(ref, sources, results) {
      var i :| 0 <= i < |task.inputRefs| && task.inputRefs[i] == ref;
    }
  }

  /** In every reachable state a worker at work was given, for each reference, the text of that source or that stored result. */
  lemma WorkersAreGiven(c: Config, s: State, id: string, key: string)
    requires Valid(c) && Reachable(c, s) && id in c.tasks && id in s.workers && Informed(s.workers[id])
    ensures Given(c.tasks[id], c.sources, s.results, s.workers[id].inputs, key)
  {
    ReachableInv(c, s);
    GivenInputs(c, s, id);
    InputsSpelled(c.tasks[id], c.sources, s.results, key);
  }

  lemma GivenInputs(c: Config, s: State, id: string)
    requires WorkersOk(c, s.workers, s.results) && id in c.tasks && id in s.workers && Informed(s.workers[id])
    ensures InputsBuilt(c, s.results, id, s.workers[id].inputs)
  {
    assert WorkerOk(c, s.results, id, s.workers[id]);
  }

  // ---- Groupings ----

  /** Task d extracted one report of its own single source, with a quote that occurs in it. */
  ghost predicate Extracted(c: Config, results: map<string, Json>, d: string) {
    && d in c.tasks && d in results && c.tasks[d].resultType == Results.REPORT_EXTRACTION
    && results[d].JObj? && "report_id" in results[d].fields && "quote" in results[d].fields
    && results[d].fields["report_id"].JStr? && results[d].fields["quote"].JStr?
    && var report := results[d].fields["report_id"].s;
       && report in c.sources && Occurs(results[d].fields["quote"].s, c.sources[report])
       && Results.SOURCES + "." + report in c.tasks[d].inputRefs
  }

  lemma CarriesMeansExtracted(c: Config, results: map<string, Json>, d: string)
    requires d in c.tasks && d in results && c.validate == Results.ValidationError && Checked(c, results, d)
    requires results[d].JObj? && "report_id" in results[d].fields
    ensures Extracted(c, results, d)
  {
    var inputs := InputsOf(c.tasks[d], c.sources, results);
    Results.OnlyExtractionsCarryReports(c.tasks[d].resultType, results[d], inputs);
    var report := results[d].fields["report_id"].s;
    var ref := Results.SOURCES + "." + report;
    PartitionDotted(Results.SOURCES, report);
    var i :| 0 <= i < |c.tasks[d].inputRefs| && c.tasks[d].inputRefs[i] == ref;
    assert Resolves(ref, c.sources, results);
    assert inputs[ref] == InputValue(ref, c.sources, results);
  }

  /** An input that carries a report is the stored value of a declared dependency. */
  lemma CarrierIsDependency(task: Task, sources: map<string, string>, results: map<string, Json>, ref: string)
    requires RefsOk(task, sources) && AllResolve(task, sources, results) && ref in task.inputRefs
    requires InputValue(ref, sources, results).JObj?
    ensures Partition(ref).1 in Deps(task) && Partition(ref).1 in results
    ensures InputValue(ref, sources, results) == results[Partition(ref).1]
  {
    var i :| 0 <= i < |task.inputRefs| && task.inputRefs[i] == ref;
    assert RefOk(ref, task, sources) && Resolves(ref, sources, results);
  }

  lemma GroupedInputsAreExtractions(c: Config, results: map<string, Json>, id: string, ref: string)
    requires c.validate == Results.ValidationError && StoreSound(c, results)
    requires id in results && RefsOk(c.tasks[id], c.sources)
    requires c.tasks[id].resultType == Results.REPORT_GROUPS && ref in c.tasks[id].inputRefs
    ensures Partition(ref).1 in Deps(c.tasks[id]) && Extracted(c, results, Partition(ref).1)
  {
    assert Checked(c, results, id);
    var task := c.tasks[id];
    var inputs := InputsOf(task, c.sources, results);
    Results.GroupingIsPartition(results[id], inputs);
    assert ref in Results.CarriesReport(inputs);
    CarrierIsDependency(task, c.sources, results, ref);
    CarriesMeansExtracted(c, results, Partition(ref).1);
  }

  /**
   In every reachable state a stored grouping is an exact partition: every input is the extraction of a
   dependency, quoted from its own source; no two inputs extract the same report; no report is listed
   twice; and the listed reports are exactly the extracted ones.
   */
  lemma StoredGroupingsPartition(c: Config, s: State, id: string)
    requires Valid(c) && Reachable(c, s) && c.validate == Results.ValidationError
    requires id in s.results && id in c.tasks && c.tasks[id].resultType == Results.REPORT_GROUPS
    ensures Checked(c, s.results, id)
    ensures Results.ExactPartition(s.results[id], InputsOf(c.tasks[id], c.sources, s.results))
    ensures forall ref :: ref in c.tasks[id].inputRefs ==>
      Partition(ref).1 in Deps(c.tasks[id]) && Extracted(c, s.results, Partition(ref).1)
  {
    StoredResultsAreSound(c, s);
    assert ValidTask(c, id, c.tasks[id]);
    assert Checked(c, s.results, id);
    forall ref | ref in c.tasks[id].inputRefs
      ensures Partition(ref).1 in Deps(c.tasks[id]) && Extracted(c, s.results, Partition(ref).1)
    {
      GroupedInputsAreExtractions(c, s.results, id, ref);
    }
    Results.GroupingIsPartition(s.results[id], InputsOf(c.tasks[id], c.sources, s.results));
  }
}
