/** A plan that runs to completion, so that what is proved about completed runs speaks of something. */
module Witness {
  import opened Json
  import opened Plans
  import opened Budgets
  import opened Tiers
  import opened Scheduler
  import opened SchedulerTheorems
  import opened SchedulerDeterminism
  import opened SchedulerForecast
  import EndToEnd
  import Results
  import Sums

  const TASKS := [DOTTED_TASK]
  const SOURCES := map["b" := "text"]
  const TIERS := ["local", "cloud"]
  const ANSWER := JObj(map["answer" := JStr("y")])

  lemma LadderOfTwo()
    ensures Ladder(TIERS)
  {
  }

  lemma TasksFit()
    ensures Distinct(Ids(TASKS)) && forall i :: 0 <= i < |TASKS| ==> TASKS[i].preferredTier in TIERS
    ensures EndToEnd.ById(TASKS) == map["a" := DOTTED_TASK]
  {
    assert TIERS[0] == "local" && TASKS[0].id == "a";
    EndToEnd.ByIdTasks(TASKS);
    assert Elements(Ids(TASKS)) == {"a"};
  }

  /** The default limits, and a model that always gives the same answer. */
  function Setup(): Config {
    TasksFit();
    EndToEnd.Configure(TASKS, SOURCES, TIERS, Limits(8, 2, 5, 2, true), 2, true, Spent(0, 0), [],
                       Line([], [], 0), (_, _) => Replied(ANSWER))
  }

  lemma SetupRoutes()
    ensures var c := Setup();
      && EndToEnd.MadeFor(c, TASKS) && c.routes.Keys == c.tasks.Keys
      && forall id :: id in c.tasks && c.tasks[id].preferredTier in c.tiers ==> c.routes[id] == TiersFor(c, id)
  {
    TasksFit();
  }

  lemma SetupIsValid()
    ensures Valid(Setup()) && Setup().tasks == map["a" := DOTTED_TASK]
  {
    TasksFit();
    LadderOfTwo();
    DottedPlanAccepted();
    SetupRoutes();
    EndToEnd.AcceptedIsValid(Setup(), Plan.Plan(TASKS, "Answer"), 8);
  }

  lemma AnswerPasses(inputs: Results.Inputs)
    ensures Results.WithoutJudgment(ANSWER) == ANSWER
    ensures Results.ValidationError(Results.TASK_ANSWER, ANSWER, inputs).None?
  {
    assert ANSWER.fields - Results.JUDGMENT_KEYS == ANSWER.fields;
    assert TrimLeft("y") == "y" && TrimRight("y") == "y";
  }

  lemma FirstAttempt()
    ensures "a" in Setup().routes && |Setup().routes["a"]| > 0 && Setup().routes["a"][0] == "local"
  {
    TasksFit();
    LadderOfTwo();
    WorkerTiersClimb("local", TIERS, 2, true);
  }

  /** A first answer that passes is the whole story of a local task. */
  lemma FirstAnswerDoes(c: Config, id: string, inputs: Results.Inputs, answer: Json)
    requires id in c.tasks && id in c.routes && c.routes[id] != [] && c.routes[id][0] != CLOUD
    requires c.provider(c.routes[id][0], Payload(c.tasks[id], inputs, 1, [])) == Replied(answer)
    requires Results.WithoutJudgment(answer) == answer && c.validate(c.tasks[id].resultType, answer, inputs).None?
    ensures Full(c, id, inputs) == Forecast(Some(answer), 0, 1)
  {
    assert After(c, id, inputs, 0, [], Replied(answer)) == Forecast(Some(answer), 0, 0);
    assert Trial(c, id, inputs, 0, []) == Forecast(Some(answer), 0, 1);
  }

  lemma ResolvesHere(results: map<string, Json>)
    ensures AllResolve(DOTTED_TASK, SOURCES, results)
  {
    PartitionDotted(Results.SOURCES, "b");
    assert Resolves(DOTTED_TASK.inputRefs[0], SOURCES, results);
  }

  lemma FateHere(values: map<string, Json>)
    requires values == map["a" := ANSWER]
    ensures var c := Setup();
      && "a" in c.tasks && "a" in c.routes && ForetoldAt(c, values, "a") && Fate(c, values, "a").demand == 0
  {
    TasksFit();
    FirstAttempt();
    ResolvesHere(values);
    var inputs := InputsOf(DOTTED_TASK, SOURCES, values);
    AnswerPasses(inputs);
    FirstAnswerDoes(Setup(), "a", inputs, ANSWER);
  }

  lemma ForetoldHere(values: map<string, Json>)
    requires values == map["a" := ANSWER]
    ensures Foretold(Setup(), values) && Demands(Setup(), values) == map["a" := 0]
  {
    SetupKeys();
    FateHere(values);
    OneTaskForetold(Setup(), values, "a");
  }

  lemma SetupKeys()
    ensures Setup().tasks.Keys == Setup().routes.Keys == {"a"}
  {
    TasksFit();
    SetupRoutes();
  }

  lemma OneTaskForetold(c: Config, values: map<string, Json>, id: string)
    requires c.tasks.Keys == c.routes.Keys == values.Keys == {id} && ForetoldAt(c, values, id)
    ensures Foretold(c, values) && Demands(c, values) == map[id := Fate(c, values, id).demand]
  {
  }

  /** An undisturbed run of this plan completes, with the model's answer as its result. */
  lemma SomeRunCompletes() returns (c: Config, steps: seq<Step>, s: State)
    ensures Valid(c) && Undisturbed(c, steps) && Exec(c, steps) == Some(s)
    ensures s.main.Completed? && s.results == map["a" := ANSWER]
  {
    c := Setup();
    var values := map["a" := ANSWER];
    SetupIsValid();
    ForetoldHere(values);
    Sums.SumZero(c.tasks.Keys, Demands(c, values));
    steps, s := SomeEnd(c);
    ForetoldComesTrue(c, values, steps, s);
  }
}
