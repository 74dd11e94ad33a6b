/** The cloud planner's task graph, parsed and validated before any worker runs. */
module Plans {
  import opened Json
  import opened Layers
  import Results

  datatype Task = Task(
    id: string,
    instruction: string,
    preferredTier: string,
    inputRefs: seq<string>,
    dependsOn: seq<string>,
    resultType: string,
    checks: seq<string>,
    why: string
  )

  datatype Plan = Plan(tasks: seq<Task>, finalInstruction: string)

  function Ids(tasks: seq<Task>): (ids: seq<string>)
    ensures |ids| == |tasks|
    ensures forall i :: 0 <= i < |tasks| ==> ids[i] == tasks[i].id
  {
    seq(|tasks|, i requires 0 <= i < |tasks| => tasks[i].id)
  }

  function Deps(task: Task): set<string> {
    Elements(task.dependsOn)
  }

  /** The dependency graph the tasks describe. */
  ghost function GraphOf(tasks: seq<Task>): Graph
    requires Distinct(Ids(tasks))
  {
    map i | 0 <= i < |tasks| :: Ids(tasks)[i] := Deps(tasks[i])
  }

  lemma GraphOfTasks(tasks: seq<Task>)
    requires Distinct(Ids(tasks))
    ensures GraphOf(tasks).Keys == Elements(Ids(tasks))
    ensures |GraphOf(tasks).Keys| == |tasks|
    ensures forall i :: 0 <= i < |tasks| ==> tasks[i].id in GraphOf(tasks)
    ensures forall i :: 0 <= i < |tasks| ==> GraphOf(tasks)[tasks[i].id] == Deps(tasks[i])
  {
    GraphKeys(tasks);
    forall i | 0 <= i < |tasks| ensures tasks[i].id in GraphOf(tasks) && GraphOf(tasks)[tasks[i].id] == Deps(tasks[i]) {
      assert Ids(tasks)[i] == tasks[i].id;
    }
  }

  lemma GraphKeys(tasks: seq<Task>)
    requires Distinct(Ids(tasks))
    ensures GraphOf(tasks).Keys == Elements(Ids(tasks)) && |GraphOf(tasks).Keys| == |tasks|
  {
    DistinctCount(Ids(tasks));
  }

  const BAD_FIELDS := "Unexpected or missing task fields"
  const BAD_ID_TEXT := "Invalid task id"
  const BAD_INSTRUCTION := "Invalid task instruction"
  const BAD_TIER_TEXT := "Invalid task preferred_tier"
  const BAD_TYPE_TEXT := "Invalid task result_type"
  const BAD_WHY := "Invalid task why"
  const BAD_ID := "Invalid task ID"
  const UNKNOWN_TIER_OR_TYPE := "Unknown task tier or result type"
  const BAD_REFS := "Invalid task input_refs"
  const BAD_DEPS := "Invalid task depends_on"
  const BAD_CHECKS := "Invalid task checks"
  const WRONG_CHECKS := "Required checks cannot be omitted or replaced"
  const NO_INPUTS := "Task needs inputs"
  const DUPLICATE_IDS := "Duplicate task IDs"
  const BAD_DEPENDENCY := "Unknown or self dependency"
  const UNKNOWN_REF := "Unknown source or undeclared result dependency"
  const BAD_PLAN := "Plan must contain version, tasks, and final_instruction"
  const BAD_VERSION := "Unsupported plan version"
  const BAD_TASK_COUNT := "Plan task count exceeds limits or is empty"
  const BAD_FINAL := "Invalid final instruction"
  const CYCLIC := "Cyclic task dependencies"

  // ---- Row checks ----

  predicate ShortText(j: Json) {
    j.JStr? && 1 <= |j.s| <= 2000
  }

  predicate NameList(j: Json) {
    && j.JArr? && |j.items| <= 12
    && (forall i :: 0 <= i < |j.items| ==> j.items[i].JStr?)
    && Distinct(j.items)
  }

  function Names(j: Json): (names: seq<string>)
    requires NameList(j)
    ensures Distinct(names) && |names| == |j.items|
  {
    seq(|j.items|, i requires 0 <= i < |j.items| => j.items[i].s)
  }

  predicate TaskId(id: string) {
    && 1 <= |id| <= 64 && 'a' <= id[0] <= 'z'
    && forall i :: 1 <= i < |id| ==> 'a' <= id[i] <= 'z' || '0' <= id[i] <= '9' || id[i] == '_'
  }

  predicate SmallLetter(c: char) {
    c in "abcdefghijklm" || c in "nopqrstuvwxyz"
  }

  predicate WordChar(c: char) {
    SmallLetter(c) || c in "0123456789" || c == '_'
  }

  lemma FirstLetters(c: char)
    ensures c in "abcdefghijklm" <==> 'a' <= c <= 'm'
  {
    if 'a' <= c <= 'm' {
      assert "abcdefghijklm"[c as int - 'a' as int] == c;
    }
  }

  lemma LastLetters(c: char)
    ensures c in "nopqrstuvwxyz" <==> 'n' <= c <= 'z'
  {
    if 'n' <= c <= 'z' {
      assert "nopqrstuvwxyz"[c as int - 'n' as int] == c;
    }
  }

  lemma Digits(c: char)
    ensures c in "0123456789" <==> '0' <= c <= '9'
  {
    if '0' <= c <= '9' {
      assert "0123456789"[c as int - '0' as int] == c;
    }
  }

  lemma LetterRange(c: char)
    ensures SmallLetter(c) <==> 'a' <= c <= 'z'
  {
    FirstLetters(c);
    LastLetters(c);
  }

  lemma WordRange(c: char)
    ensures WordChar(c) <==> 'a' <= c <= 'z' || '0' <= c <= '9' || c == '_'
  {
    LetterRange(c);
    Digits(c);
  }

  /** An ID is a small letter and then at most 63 small letters, digits and underscores. */
  lemma TaskIdIff(id: string)
    ensures TaskId(id) <==> 1 <= |id| <= 64 && SmallLetter(id[0]) && forall c :: c in id[1..] ==> WordChar(c)
  {
    if id != "" {
      LetterRange(id[0]);
      var tail := id[1..];
      forall i | 1 <= i < |id| ensures id[i] in tail && (WordChar(id[i]) <==> 'a' <= id[i] <= 'z' || '0' <= id[i] <= '9' || id[i] == '_') {
        assert tail[i - 1] == id[i];
        WordRange(id[i]);
      }
    }
  }

  const ROW_FIELDS := {"id", "instruction", "preferred_tier", "input_refs", "depends_on", "result_type", "checks"}

  predicate HasFields(row: Json, version: int) {
    row.JObj? && row.fields.Keys == if version == 1 then ROW_FIELDS else ROW_FIELDS + {"why"}
  }

  function ReadRow(row: Json, version: int, tiers: seq<string>): Result<Task> {
    if !HasFields(row, version) then Err(BAD_FIELDS)
    else
      assert ROW_FIELDS <= row.fields.Keys;
      var f := row.fields;
      if !ShortText(f["id"]) then Err(BAD_ID_TEXT)
      else if !ShortText(f["instruction"]) then Err(BAD_INSTRUCTION)
      else if !ShortText(f["preferred_tier"]) then Err(BAD_TIER_TEXT)
      else if !ShortText(f["result_type"]) then Err(BAD_TYPE_TEXT)
      else if "why" in f && !ShortText(f["why"]) then Err(BAD_WHY)
      else if !TaskId(f["id"].s) then Err(BAD_ID)
      else if f["preferred_tier"].s !in tiers || !Results.KnownType(f["result_type"].s) then Err(UNKNOWN_TIER_OR_TYPE)
      else if !NameList(f["input_refs"]) then Err(BAD_REFS)
      else if !NameList(f["depends_on"]) then Err(BAD_DEPS)
      else if !NameList(f["checks"]) then Err(BAD_CHECKS)
      else if Elements(Names(f["checks"])) != Results.RequiredChecks(f["result_type"].s) then Err(WRONG_CHECKS)
      else if f["input_refs"].items == [] then Err(NO_INPUTS)
      else Ok(Task(f["id"].s, f["instruction"].s, f["preferred_tier"].s, Names(f["input_refs"]),
                   Names(f["depends_on"]), f["result_type"].s, Names(f["checks"]),
                   if "why" in f then f["why"].s else ""))
  }

  predicate AllRead(rows: seq<Json>, version: int, tiers: seq<string>) {
    forall i :: 0 <= i < |rows| ==> ReadRow(rows[i], version, tiers).Ok?
  }

  function TasksOf(rows: seq<Json>, version: int, tiers: seq<string>): seq<Task>
    requires AllRead(rows, version, tiers)
  {
    seq(|rows|, i requires 0 <= i < |rows| => ReadRow(rows[i], version, tiers).value)
  }

  /** Reads the rows in order and stops at the first bad one. */
  method ReadRows(rows: seq<Json>, version: int, tiers: seq<string>) returns (r: Result<seq<Task>>)
    ensures r.Ok? <==> AllRead(rows, version, tiers)
    ensures r.Ok? ==> r.value == TasksOf(rows, version, tiers)
    ensures r.Err? ==> exists i ::
      0 <= i < |rows| && AllRead(rows[..i], version, tiers) && ReadRow(rows[i], version, tiers) == Err(r.error)
  {
    var tasks: seq<Task> := [];
    for i := 0 to |rows|
      invariant |tasks| == i
      invariant forall k :: 0 <= k < i ==> ReadRow(rows[k], version, tiers) == Ok(tasks[k])
    {
      var read := ReadRow(rows[i], version, tiers);
      if read.Err? {
        return Err(read.error);
      }
      tasks := tasks + [read.value];
    }
    return Ok(tasks);
  }

  /** What holds of any task whose row was read. */
  predicate TaskOk(task: Task, tiers: seq<string>) {
    && TaskId(task.id) && task.preferredTier in tiers && Results.KnownType(task.resultType)
    && Distinct(task.inputRefs) && task.inputRefs != [] && Distinct(task.dependsOn)
  }

  lemma RowReadOk(row: Json, version: int, tiers: seq<string>)
    requires ReadRow(row, version, tiers).Ok?
    ensures TaskOk(ReadRow(row, version, tiers).value, tiers)
  {
  }

  /** A reference names a source, or a result the task declares a dependency on. */
  predicate RefOk(ref: string, task: Task, sources: map<string, string>) {
    var (prefix, key) := Partition(ref);
    || (prefix == Results.SOURCES && key in sources)
    || (prefix == Results.RESULTS && key in task.dependsOn)
  }

  predicate DepsOk(task: Task, ids: set<string>) {
    Deps(task) <= ids && task.id !in task.dependsOn
  }

  predicate RefsOk(task: Task, sources: map<string, string>) {
    forall i :: 0 <= i < |task.inputRefs| ==> RefOk(task.inputRefs[i], task, sources)
  }

  /** Everything parse requires of the tasks apart from the absence of cycles. */
  ghost predicate WellFormed(tasks: seq<Task>, sources: map<string, string>, tiers: seq<string>) {
    && Distinct(Ids(tasks))
    && forall i :: 0 <= i < |tasks| ==>
         TaskOk(tasks[i], tiers) && DepsOk(tasks[i], Elements(Ids(tasks))) && RefsOk(tasks[i], sources)
  }

  lemma WellFormedIsClosed(tasks: seq<Task>, sources: map<string, string>, tiers: seq<string>)
    requires WellFormed(tasks, sources, tiers)
    ensures Closed(GraphOf(tasks))
  {
    GraphOfTasks(tasks);
    var g := GraphOf(tasks);
    forall t | t in g ensures g[t] <= g.Keys {
      var i :| 0 <= i < |tasks| && Ids(tasks)[i] == t;
      assert DepsOk(tasks[i], Elements(Ids(tasks)));
    }
  }

  /** The task depends on itself or on something that is no task. */
  predicate StrayDependency(task: Task, ids: set<string>) {
    exists d :: d in task.dependsOn && (d == task.id || d !in ids)
  }

  lemma StrayIff(task: Task, ids: set<string>)
    ensures StrayDependency(task, ids) <==> !DepsOk(task, ids)
  {
  }

  ghost predicate FineBefore(tasks: seq<Task>, sources: map<string, string>, k: nat)
    requires k <= |tasks|
  {
    forall i :: 0 <= i < k ==> !StrayDependency(tasks[i], Elements(Ids(tasks))) && RefsOk(tasks[i], sources)
  }

  /** Task k is the first with a fault, and this is what parse says of it. */
  ghost predicate FaultAt(tasks: seq<Task>, sources: map<string, string>, k: nat, error: string) {
    && k < |tasks| && FineBefore(tasks, sources, k)
    && (if StrayDependency(tasks[k], Elements(Ids(tasks))) then error == BAD_DEPENDENCY
        else !RefsOk(tasks[k], sources) && error == UNKNOWN_REF)
  }

  lemma FineSoFar(tasks: seq<Task>, sources: map<string, string>, k: nat)
    requires k <= |tasks| && forall i :: 0 <= i < k ==> DepsOk(tasks[i], Elements(Ids(tasks))) && RefsOk(tasks[i], sources)
    ensures FineBefore(tasks, sources, k)
  {
    forall i | 0 <= i < k ensures !StrayDependency(tasks[i], Elements(Ids(tasks))) {
      StrayIff(tasks[i], Elements(Ids(tasks)));
    }
  }

  /** IDs are unique, dependencies known and not the task itself, and every reference is declared; or what is wrong first. */
  method CheckReferences(tasks: seq<Task>, sources: map<string, string>) returns (error: Option<string>)
    ensures error.None? <==> Distinct(Ids(tasks)) && forall i :: 0 <= i < |tasks| ==>
      DepsOk(tasks[i], Elements(Ids(tasks))) && RefsOk(tasks[i], sources)
    ensures error.Some? ==>
      if !Distinct(Ids(tasks)) then error.value == DUPLICATE_IDS else exists k :: FaultAt(tasks, sources, k, error.value)
  {
    var ids := Elements(Ids(tasks));
    DistinctCount(Ids(tasks));
    if |ids| != |tasks| {
      return Some(DUPLICATE_IDS);
    }
    for i := 0 to |tasks|
      invariant forall k :: 0 <= k < i ==> DepsOk(tasks[k], ids) && RefsOk(tasks[k], sources)
    {
      StrayIff(tasks[i], ids);
      FineSoFar(tasks, sources, i);
      if !DepsOk(tasks[i], ids) {
        assert FaultAt(tasks, sources, i, BAD_DEPENDENCY);
        return Some(BAD_DEPENDENCY);
      }
      for j := 0 to |tasks[i].inputRefs|
        invariant forall k :: 0 <= k < j ==> RefOk(tasks[i].inputRefs[k], tasks[i], sources)
      {
        if !RefOk(tasks[i].inputRefs[j], tasks[i], sources) {
          assert FaultAt(tasks, sources, i, UNKNOWN_REF);
          return Some(UNKNOWN_REF);
        }
      }
    }
    return None;
  }

  // ---- Layer peeling ----

  /** The tasks outside `resolved` whose dependencies all lie inside it. */
  function Peel(tasks: seq<Task>, resolved: set<string>): set<string> {
    set t | t in tasks && t.id !in resolved && Deps(t) <= resolved :: t.id
  }

  lemma PeelIsReady(tasks: seq<Task>, resolved: set<string>)
    requires Distinct(Ids(tasks))
    ensures Peel(tasks, resolved) == Ready(GraphOf(tasks), resolved)
  {
    GraphOfTasks(tasks);
    forall t | t in Ready(GraphOf(tasks), resolved) ensures t in Peel(tasks, resolved) {
      var i :| 0 <= i < |tasks| && Ids(tasks)[i] == t;
      assert tasks[i] in tasks;
    }
  }

  /**
   The cycle check: repeatedly resolve every task whose dependencies are resolved. `rounds` records the
   round, counted from one, in which each task is resolved.
   */
  method PeelLayers(tasks: seq<Task>) returns (acyclic: bool, rounds: map<string, nat>)
    requires Distinct(Ids(tasks)) && Closed(GraphOf(tasks))
    ensures acyclic <==> Acyclic(GraphOf(tasks))
    ensures acyclic ==> IsLayering(GraphOf(tasks), rounds)
  {
    ghost var g := GraphOf(tasks);
    GraphOfTasks(tasks);
    var n := 0;
    rounds := map[];
    while |rounds.Keys| < |tasks|
      invariant Peeled(g, rounds, n)
      decreases |tasks| - |rounds.Keys|
    {
      var ready := Peel(tasks, rounds.Keys);
      PeelIsReady(tasks, rounds.Keys);
      if ready == {} {
        StuckIsCyclic(g, rounds.Keys);
        return false, rounds;
      }
      PeelRound(g, rounds, n);
      n := n + 1;
      RoundGrows(rounds, ready, n);
      rounds := AddRound(rounds, ready, n);
      SubsetSize(rounds.Keys, g.Keys);
    }
    SubsetSize(rounds.Keys, g.Keys);
    PeeledAll(g, rounds, n);
    return true, rounds;
  }

  // ---- The JSON form of a plan ----

  /** What a row can hold; version 1 has no place for a reason, version 2 demands one. */
  predicate Writable(task: Task, version: int, tiers: seq<string>) {
    && TaskOk(task, tiers) && 1 <= |task.instruction| <= 2000 && 1 <= |task.preferredTier| <= 2000
    && (if version == 1 then task.why == "" else 1 <= |task.why| <= 2000)
    && |task.inputRefs| <= 12 && |task.dependsOn| <= 12 && |task.checks| <= 12 && Distinct(task.checks)
    && NamesItsChecks(task.resultType, Elements(task.checks))
  }

  /** The checks a plan must name, no more and no less, for each kind of result. */
  predicate NamesItsChecks(kind: string, checks: set<string>) {
    || (kind == "task_answer" && checks == {"required_fields"})
    || (kind == "report_extraction" && checks == {"required_fields", "source_quotes_match"})
    || (kind == "report_groups" && checks == {"required_fields", "report_ids_preserved"})
  }

  function AsList(names: seq<string>): Json {
    JArr(seq(|names|, i requires 0 <= i < |names| => JStr(names[i])))
  }

  lemma ListReadsBack(names: seq<string>)
    requires Distinct(names) && |names| <= 12
    ensures NameList(AsList(names)) && Names(AsList(names)) == names
  {
  }

  function AsRow(task: Task, version: int): Json {
    var fields := map["id" := JStr(task.id), "instruction" := JStr(task.instruction),
                      "preferred_tier" := JStr(task.preferredTier), "input_refs" := AsList(task.inputRefs),
                      "depends_on" := AsList(task.dependsOn), "result_type" := JStr(task.resultType),
                      "checks" := AsList(task.checks)];
    JObj(if version == 1 then fields else fields["why" := JStr(task.why)])
  }

  lemma RowReadsBack(task: Task, version: int, tiers: seq<string>)
    requires Writable(task, version, tiers)
    ensures ReadRow(AsRow(task, version), version, tiers) == Ok(task)
  {
    ListReadsBack(task.inputRefs);
    ListReadsBack(task.dependsOn);
    ListReadsBack(task.checks);
    var row := AsRow(task, version);
    RowHasFields(task, version);
    assert |task.resultType| <= 2000 && |task.id| <= 64;
  }

  /** A list that passes its checks is the JSON form of its names. */
  lemma ListIsWritten(j: Json)
    requires NameList(j)
    ensures j == AsList(Names(j))
  {
    assert j.items == AsList(Names(j)).items;
  }

  lemma RowIsWritten(row: Json, version: int, tiers: seq<string>)
    requires ReadRow(row, version, tiers).Ok?
    ensures Writable(ReadRow(row, version, tiers).value, version, tiers)
    ensures row == AsRow(ReadRow(row, version, tiers).value, version)
  {
    var task := ReadRow(row, version, tiers).value;
    ListIsWritten(row.fields["input_refs"]);
    ListIsWritten(row.fields["depends_on"]);
    ListIsWritten(row.fields["checks"]);
    RowHasFields(task, version);
    assert row.fields == AsRow(task, version).fields;
  }

  /** A row reads as a task exactly if the task fits into a row and the row is its JSON form, with no field more or less. */
  lemma ReadIffWritten(row: Json, version: int, tiers: seq<string>, task: Task)
    ensures ReadRow(row, version, tiers) == Ok(task) <==> Writable(task, version, tiers) && row == AsRow(task, version)
  {
    if ReadRow(row, version, tiers) == Ok(task) {
      RowIsWritten(row, version, tiers);
    }
    if Writable(task, version, tiers) {
      RowReadsBack(task, version, tiers);
    }
  }

  lemma RowHasFields(task: Task, version: int)
    ensures HasFields(AsRow(task, version), version)
  {
  }

  function AsJson(plan: Plan, version: int): Json {
    JObj(map["version" := JInt(version), "final_instruction" := JStr(plan.finalInstruction),
             "tasks" := JArr(seq(|plan.tasks|, i requires 0 <= i < |plan.tasks| => AsRow(plan.tasks[i], version)))])
  }

  ghost predicate AllWritable(plan: Plan, version: int, tiers: seq<string>) {
    && version in {1, 2} && 1 <= |plan.finalInstruction| <= 2000
    && forall i :: 0 <= i < |plan.tasks| ==> Writable(plan.tasks[i], version, tiers)
  }

  /** The value is the JSON form of this plan, which fits into it. */
  ghost predicate WrittenAs(value: Json, plan: Plan, version: int, tiers: seq<string>) {
    AllWritable(plan, version, tiers) && value == AsJson(plan, version)
  }

  // ---- parse ----

  predicate HeaderOk(value: Json, maxTasks: nat) {
    && value.JObj? && value.fields.Keys == {"version", "tasks", "final_instruction"}
    && value.fields["version"].JInt? && value.fields["version"].i in {1, 2}
    && value.fields["tasks"].JArr? && 1 <= |value.fields["tasks"].items| <= maxTasks
    && ShortText(value.fields["final_instruction"])
  }

  function HeaderError(value: Json, maxTasks: nat): string
    requires !HeaderOk(value, maxTasks)
  {
    if !value.JObj? || value.fields.Keys != {"version", "tasks", "final_instruction"} then BAD_PLAN
    else if !value.fields["version"].JInt? || value.fields["version"].i !in {1, 2} then BAD_VERSION
    else if !value.fields["tasks"].JArr? || !(1 <= |value.fields["tasks"].items| <= maxTasks) then BAD_TASK_COUNT
    else BAD_FINAL
  }

  predicate RowsRead(value: Json, maxTasks: nat, tiers: seq<string>) {
    && HeaderOk(value, maxTasks)
    && AllRead(value.fields["tasks"].items, value.fields["version"].i, tiers)
  }

  function RowsOf(value: Json, maxTasks: nat, tiers: seq<string>): seq<Task>
    requires RowsRead(value, maxTasks, tiers)
  {
    TasksOf(value.fields["tasks"].items, value.fields["version"].i, tiers)
  }

  /** The value reads as tasks that are well formed, cyclic or not. */
  ghost predicate Readable(value: Json, sources: map<string, string>, maxTasks: nat, tiers: seq<string>) {
    RowsRead(value, maxTasks, tiers) && WellFormed(RowsOf(value, maxTasks, tiers), sources, tiers)
  }

  /** The plan is the one this value spells out, task by task. */
  ghost predicate Spells(value: Json, plan: Plan, maxTasks: nat, tiers: seq<string>) {
    && RowsRead(value, maxTasks, tiers) && plan.tasks == RowsOf(value, maxTasks, tiers)
    && JStr(plan.finalInstruction) == value.fields["final_instruction"]
  }

  /** A plan that parse can return. */
  ghost predicate Accepted(plan: Plan, sources: map<string, string>, maxTasks: nat, tiers: seq<string>) {
    && 1 <= |plan.tasks| <= maxTasks
    && WellFormed(plan.tasks, sources, tiers)
    && Acyclic(GraphOf(plan.tasks))
  }

  /** A value that spells out an acceptable plan is readable, and its tasks have no cycle. */
  lemma AcceptedIsReadable(value: Json, plan: Plan, sources: map<string, string>, maxTasks: nat, tiers: seq<string>)
    requires Spells(value, plan, maxTasks, tiers) && Accepted(plan, sources, maxTasks, tiers)
    ensures Readable(value, sources, maxTasks, tiers) && Acyclic(GraphOf(RowsOf(value, maxTasks, tiers)))
  {
  }

  lemma SpelledOnce(value: Json, one: Plan, two: Plan, maxTasks: nat, tiers: seq<string>)
    requires Spells(value, one, maxTasks, tiers) && Spells(value, two, maxTasks, tiers)
    ensures one == two
  {
  }

  lemma RowsReadOk(rows: seq<Json>, version: int, tiers: seq<string>)
    requires AllRead(rows, version, tiers)
    ensures forall i :: 0 <= i < |rows| ==> TaskOk(TasksOf(rows, version, tiers)[i], tiers)
  {
    forall i | 0 <= i < |rows| ensures TaskOk(TasksOf(rows, version, tiers)[i], tiers) {
      RowReadOk(rows[i], version, tiers);
    }
  }

  /** Whatever reads is the JSON form of what it reads as. */
  lemma ReadIsWritten(value: Json, plan: Plan, maxTasks: nat, tiers: seq<string>)
    requires Spells(value, plan, maxTasks, tiers)
    ensures WrittenAs(value, plan, value.fields["version"].i, tiers)
  {
    var rows, version := value.fields["tasks"].items, value.fields["version"].i;
    forall i | 0 <= i < |rows| ensures Writable(plan.tasks[i], version, tiers) && rows[i] == AsRow(plan.tasks[i], version) {
      RowIsWritten(rows[i], version, tiers);
    }
    assert rows == AsJson(plan, version).fields["tasks"].items;
    assert value.fields == AsJson(plan, version).fields;
  }

  lemma RowsReadBack(plan: Plan, version: int, maxTasks: nat, tiers: seq<string>)
    requires AllWritable(plan, version, tiers) && 1 <= |plan.tasks| <= maxTasks
    ensures RowsRead(AsJson(plan, version), maxTasks, tiers) && RowsOf(AsJson(plan, version), maxTasks, tiers) == plan.tasks
  {
    var rows := AsJson(plan, version).fields["tasks"].items;
    forall i | 0 <= i < |rows| ensures ReadRow(rows[i], version, tiers) == Ok(plan.tasks[i]) {
      RowReadsBack(plan.tasks[i], version, tiers);
    }
    assert HeaderOk(AsJson(plan, version), maxTasks);
  }

  /** The value is the JSON form of some acceptable plan. */
  ghost predicate Writes(value: Json, plan: Plan, version: int, sources: map<string, string>, maxTasks: nat, tiers: seq<string>) {
    WrittenAs(value, plan, version, tiers) && Accepted(plan, sources, maxTasks, tiers)
  }

  /** What reads as an acyclic plan is the JSON form of an acceptable plan, and the other way round. */
  lemma ReadableIffWritten(value: Json, sources: map<string, string>, maxTasks: nat, tiers: seq<string>)
    ensures Readable(value, sources, maxTasks, tiers) && Acyclic(GraphOf(RowsOf(value, maxTasks, tiers))) <==>
      exists plan, version :: Writes(value, plan, version, sources, maxTasks, tiers)
  {
    if Readable(value, sources, maxTasks, tiers) && Acyclic(GraphOf(RowsOf(value, maxTasks, tiers))) {
      var plan := Plan(RowsOf(value, maxTasks, tiers), value.fields["final_instruction"].s);
      ReadIsWritten(value, plan, maxTasks, tiers);
      assert Writes(value, plan, value.fields["version"].i, sources, maxTasks, tiers);
    }
    if plan, version :| Writes(value, plan, version, sources, maxTasks, tiers) {
      RowsReadBack(plan, version, maxTasks, tiers);
    }
  }

  /** The header, then the rows. */
  method ReadTasks(value: Json, maxTasks: nat, tiers: seq<string>) returns (r: Result<seq<Task>>)
    ensures r.Ok? <==> RowsRead(value, maxTasks, tiers)
    ensures r.Ok? ==> r.value == RowsOf(value, maxTasks, tiers) && 1 <= |r.value| <= maxTasks
    ensures r.Ok? ==> forall i :: 0 <= i < |r.value| ==> TaskOk(r.value[i], tiers)
  {
    if !HeaderOk(value, maxTasks) {
      return Err(HeaderError(value, maxTasks));
    }
    r := ReadRows(value.fields["tasks"].items, value.fields["version"].i, tiers);
    if r.Ok? {
      RowsReadOk(value.fields["tasks"].items, value.fields["version"].i, tiers);
    }
  }

  /** What parse says of tasks that it has read: duplicate IDs first, then the first fault of the first faulty task, then cycles. */
  ghost predicate FirstFault(tasks: seq<Task>, sources: map<string, string>, error: string) {
    if !Distinct(Ids(tasks)) then error == DUPLICATE_IDS
    else if FineBefore(tasks, sources, |tasks|) then error == CYCLIC
    else exists k :: FaultAt(tasks, sources, k, error)
  }

  /** The checks on all the tasks together: references first, then cycles. */
  method CheckTasks(tasks: seq<Task>, sources: map<string, string>, tiers: seq<string>) returns (error: Option<string>)
    requires forall i :: 0 <= i < |tasks| ==> TaskOk(tasks[i], tiers)
    ensures error.None? <==> WellFormed(tasks, sources, tiers) && Acyclic(GraphOf(tasks))
    ensures WellFormed(tasks, sources, tiers) && error.Some? ==> error.value == CYCLIC
    ensures error.Some? ==> FirstFault(tasks, sources, error.value)
  {
    error := CheckReferences(tasks, sources);
    if error.Some? {
      return;
    }
    WellFormedIsClosed(tasks, sources, tiers);
    FineSoFar(tasks, sources, |tasks|);
    var acyclic, _ := PeelLayers(tasks);
    return if acyclic then None else Some(CYCLIC);
  }

  /**
   Accepts exactly the JSON forms of acceptable plans, returns the plan, and says that there is a dependency cycle when
   that is all that is wrong.
   */
  method Parse(value: Json, sources: map<string, string>, maxTasks: nat, tiers: seq<string>)
    returns (r: Result<Plan>)
    ensures r.Ok? <==> exists plan, version :: Writes(value, plan, version, sources, maxTasks, tiers)
    ensures r.Ok? ==> exists version :: Writes(value, r.value, version, sources, maxTasks, tiers)
    ensures r.Ok? <==>
      && Readable(value, sources, maxTasks, tiers)
      && Acyclic(GraphOf(RowsOf(value, maxTasks, tiers)))
    ensures r.Ok? ==> Spells(value, r.value, maxTasks, tiers) && Accepted(r.value, sources, maxTasks, tiers)
    ensures Readable(value, sources, maxTasks, tiers) && r.Err? ==> r.error == CYCLIC
    ensures RowsRead(value, maxTasks, tiers) && r.Err? ==> FirstFault(RowsOf(value, maxTasks, tiers), sources, r.error)
  {
    ReadableIffWritten(value, sources, maxTasks, tiers);
    var read := ReadTasks(value, maxTasks, tiers);
    if read.Err? {
      return Err(read.error);
    }
    var wrong := CheckTasks(read.value, sources, tiers);
    if wrong.Some? {
      return Err(wrong.value);
    }
    r := Ok(Plan(read.value, value.fields["final_instruction"].s));
    ReadIsWritten(value, r.value, maxTasks, tiers);
    assert Writes(value, r.value, value.fields["version"].i, sources, maxTasks, tiers);
  }

  // ---- What a worker makes of the references ----

  /** `ref.split(".", 1)` unpacks into two parts only when there is a dot. */
  predicate Resolves(ref: string, sources: map<string, string>, results: map<string, Json>) {
    && '.' in ref
    && var (prefix, key) := Partition(ref);
       if prefix == Results.SOURCES then key in sources else key in results
  }

  /**
   Once its dependencies are stored, an accepted task's reference resolves unless it is the bare name
   "sources", which parse lets through when a source has the empty name.
   */
  lemma ReferenceResolvesIff(ref: string, task: Task, sources: map<string, string>, results: map<string, Json>,
                             ids: set<string>)
    requires RefOk(ref, task, sources) && Deps(task) <= results.Keys && DepsOk(task, ids)
    requires forall id :: id in ids ==> TaskId(id)
    ensures Resolves(ref, sources, results) <==> ref != Results.SOURCES
    ensures ref == Results.SOURCES ==> "" in sources
  {
    PartitionJoins(ref);
    assert !TaskId("") && "" !in Deps(task);
  }

  /** The bare name has no dot to split at. */
  lemma BareNeverResolves(sources: map<string, string>, results: map<string, Json>)
    ensures !Resolves(Results.SOURCES, sources, results)
  {
    assert '.' !in Results.SOURCES;
  }

  /** The references of any task pass if and only if the dotted ones do, and the bare name only with an empty source name. */
  lemma BareReferenceAccepted(task: Task, sources: map<string, string>)
    ensures RefsOk(task, sources) <==>
      && (forall i :: 0 <= i < |task.inputRefs| && task.inputRefs[i] != Results.SOURCES ==> RefOk(task.inputRefs[i], task, sources))
      && (Results.SOURCES in task.inputRefs ==> "" in sources)
  {
    BareReferenceOk(task, sources);
  }

  lemma BareReferenceOk(task: Task, sources: map<string, string>)
    ensures RefOk(Results.SOURCES, task, sources) <==> "" in sources
  {
    PartitionJoins(Results.SOURCES);
  }

  // ---- Reading back ----

  /** Every acceptable plan that can be written down is what parse returns for its JSON form. */
  method ParseWritten(plan: Plan, version: int, sources: map<string, string>, maxTasks: nat, tiers: seq<string>)
    returns (r: Result<Plan>)
    requires AllWritable(plan, version, tiers) && Accepted(plan, sources, maxTasks, tiers)
    ensures r == Ok(plan)
  {
    RowsReadBack(plan, version, maxTasks, tiers);
    r := Parse(AsJson(plan, version), sources, maxTasks, tiers);
  }

  // ---- Concrete plans ----

  const BARE_TASK := Task("a", "Do it", "local", [Results.SOURCES], [], Results.TASK_ANSWER, ["required_fields"], "")
  const DOTTED_TASK := Task("a", "Do it", "local", [Results.SOURCES + "." + "b"], [], Results.TASK_ANSWER, ["required_fields"], "")

  lemma TaskIsWritable(task: Task)
    requires task == BARE_TASK || task == DOTTED_TASK
    ensures Writable(task, 1, ["local", "cloud"])
  {
    assert "local" == ["local", "cloud"][0];
    assert Elements(["required_fields"]) == {"required_fields"};
  }

  lemma SingleTaskAccepted(task: Task, sources: map<string, string>, tiers: seq<string>)
    requires TaskOk(task, tiers) && task.dependsOn == [] && |task.inputRefs| == 1 && RefOk(task.inputRefs[0], task, sources)
    ensures Accepted(Plan([task], "Answer"), sources, 8, tiers)
  {
    var tasks := [task];
    assert tasks[0] == task && Plan(tasks, "Answer").tasks == tasks;
    assert RefsOk(task, sources);
    assert DepsOk(task, Elements(Ids(tasks)));
    SingleTaskAcyclic(task);
  }

  lemma SingleTaskAcyclic(task: Task)
    requires task.dependsOn == []
    ensures Acyclic(GraphOf([task]))
  {
    GraphOfTasks([task]);
    var rank: map<string, nat> := map[task.id := 0];
    assert IsRanking(GraphOf([task]), rank);
    RankingImpliesAcyclic(GraphOf([task]), rank);
  }

  /** A concrete value that parse accepts, and whose worker cannot build its inputs. */
  method EmptyNameBreaksWorker(ghost results: map<string, Json>) returns (value: Json, r: Result<Plan>)
    ensures r.Ok? && r.value.tasks == [BARE_TASK] && Readable(value, map["" := "text"], 8, ["local", "cloud"])
    ensures !Resolves(BARE_TASK.inputRefs[0], map["" := "text"], results)
  {
    var sources, plan := map["" := "text"], Plan([BARE_TASK], "Answer");
    TaskIsWritable(BARE_TASK);
    BareReferenceOk(BARE_TASK, sources);
    SingleTaskAccepted(BARE_TASK, sources, ["local", "cloud"]);
    RowsReadBack(plan, 1, 8, ["local", "cloud"]);
    BareNeverResolves(sources, results);
    value := AsJson(plan, 1);
    r := Parse(value, sources, 8, ["local", "cloud"]);
  }

  /** A concrete plan whose only reference names a source. */
  lemma DottedPlanAccepted()
    ensures Accepted(Plan([DOTTED_TASK], "Answer"), map["b" := "text"], 8, ["local", "cloud"])
    ensures DOTTED_TASK.inputRefs[0] != Results.SOURCES
  {
    TaskIsWritable(DOTTED_TASK);
    PartitionDotted(Results.SOURCES, "b");
    SingleTaskAccepted(DOTTED_TASK, map["b" := "text"], ["local", "cloud"]);
  }
}
