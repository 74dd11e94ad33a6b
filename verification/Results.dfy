/** Kinds of subtask results and the checks each passes before the relay stores it. */
module Results {
  import opened Json

  type Fields = map<string, Json>
  type Inputs = map<string, Json>  // what a worker was given, by input reference

  const TASK_ANSWER := "task_answer"
  const REPORT_EXTRACTION := "report_extraction"
  const REPORT_GROUPS := "report_groups"
  const SOURCES := "sources"
  const RESULTS := "results"

  const BAD_ANSWER := "Task answer requires nonempty answer text of at most 16000 characters"
  const BAD_EXTRACTION := "Extraction requires report_id and quote"
  const EMPTY_EVIDENCE := "Invalid or empty report evidence"
  const WRONG_QUOTE := "Quote does not match the assigned source"
  const MANY_SOURCES := "Extraction must cover its single assigned source"
  const BAD_GROUP := "Invalid group fields"
  const BAD_LABEL := "Invalid group label"
  const BAD_GROUP_IDS := "Invalid group report IDs"
  const NO_GROUPS := "Grouping requires nonempty groups"
  const BAD_REPORTS := "Grouping needs one extraction per report"
  const NOT_A_PARTITION := "Every report ID must occur exactly once"
  const UNKNOWN_TYPE := "Unsupported result type"
  const NOT_AN_OBJECT := "Worker must return an object"

  predicate KnownType(kind: string) {
    kind == TASK_ANSWER || kind == REPORT_EXTRACTION || kind == REPORT_GROUPS
  }

  /** The checks a plan has to name for a task of this kind. */
  function RequiredChecks(kind: string): set<string> {
    if kind == REPORT_EXTRACTION then {"required_fields", "source_quotes_match"}
    else if kind == REPORT_GROUPS then {"required_fields", "report_ids_preserved"}
    else {"required_fields"}
  }

  // The checks return None to accept, or the error message that rejects.

  function TaskAnswerError(value: Fields): Option<string> {
    if value.Keys == {"answer"} && value["answer"].JStr? && 1 <= |Strip(value["answer"].s)| <= 16000 then None
    else Some(BAD_ANSWER)
  }

  function SourceRefs(inputs: Inputs): set<string> {
    set ref | ref in inputs && SOURCES + "." <= ref
  }

  function ReportExtractionError(value: Fields, inputs: Inputs): Option<string> {
    if value.Keys != {"report_id", "quote"} then Some(BAD_EXTRACTION)
    else if !value["report_id"].JStr? || !value["quote"].JStr? || Blank(value["quote"].s) then Some(EMPTY_EVIDENCE)
    else
      var ref := SOURCES + "." + value["report_id"].s;
      if ref !in inputs || !inputs[ref].JStr? || !Occurs(value["quote"].s, inputs[ref].s) then Some(WRONG_QUOTE)
      else if SourceRefs(inputs) != {ref} then Some(MANY_SOURCES)
      else None
  }

  /** The inputs that carry a report ID. */
  function CarriesReport(inputs: Inputs): set<string> {
    set ref | ref in inputs && inputs[ref].JObj? && "report_id" in inputs[ref].fields
  }

  function ReportIds(inputs: Inputs): set<Json> {
    set ref | ref in CarriesReport(inputs) :: inputs[ref].fields["report_id"]
  }

  function GroupError(group: Json): Option<string> {
    if !group.JObj? || group.fields.Keys != {"label", "report_ids"} then Some(BAD_GROUP)
    else if !group.fields["label"].JStr? || !(1 <= |group.fields["label"].s| <= 300) then Some(BAD_LABEL)
    else
      var ids := group.fields["report_ids"];
      if !ids.JArr? || ids.items == [] || exists i :: 0 <= i < |ids.items| && !ids.items[i].JStr? then Some(BAD_GROUP_IDS)
      else None
  }

  /** The report IDs a well-formed group lists. */
  function Members(group: Json): (ids: seq<string>)
    requires GroupError(group).None?
    ensures |ids| > 0
  {
    var items := group.fields["report_ids"].items;
    seq(|items|, i requires 0 <= i < |items| => items[i].s)
  }

  function FirstBadGroup(groups: seq<Json>): (e: Option<string>)
    ensures e.None? <==> forall i :: 0 <= i < |groups| ==> GroupError(groups[i]).None?
  {
    if groups == [] then None
    else if GroupError(groups[0]).Some? then GroupError(groups[0])
    else
      var rest := FirstBadGroup(groups[1..]);
      assert groups == [groups[0]] + groups[1..];
      assert forall i :: 0 < i < |groups| ==> groups[i] == groups[1..][i - 1];
      rest
  }

  function AllMembers(groups: seq<Json>): seq<string>
    requires forall i :: 0 <= i < |groups| ==> GroupError(groups[i]).None?
  {
    if groups == [] then [] else AllMembers(groups[..|groups| - 1]) + Members(groups[|groups| - 1])
  }

  function AsJson(ids: seq<string>): set<Json> {
    set s | s in ids :: JStr(s)
  }

  function ReportGroupsError(value: Fields, inputs: Inputs): Option<string> {
    if value.Keys != {"groups"} || !value["groups"].JArr? || value["groups"].items == [] then Some(NO_GROUPS)
    else
      var groups, expected := value["groups"].items, ReportIds(inputs);
      if expected == {} || |expected| != |inputs| then Some(BAD_REPORTS)
      else if FirstBadGroup(groups).Some? then FirstBadGroup(groups)
      else if |AllMembers(groups)| != |expected| || AsJson(AllMembers(groups)) != expected then Some(NOT_A_PARTITION)
      else None
  }

  /** One pass over the groups that collects every listed ID and stops at the first bad group. */
  method Collect(groups: seq<Json>) returns (failed: Option<string>, actual: seq<string>)
    ensures failed == FirstBadGroup(groups)
    ensures failed.None? ==> actual == AllMembers(groups)
  {
    actual := [];
    for i := 0 to |groups|
      invariant FirstBadGroup(groups) == FirstBadGroup(groups[i..])
      invariant forall k :: 0 <= k < i ==> GroupError(groups[k]).None?
      invariant actual == AllMembers(groups[..i])
    {
      failed := GroupError(groups[i]);
      assert groups[i..][1..] == groups[i + 1..];
      if failed.Some? {
        return;
      }
      assert groups[..i + 1][..i] == groups[..i];
      actual := actual + Members(groups[i]);
    }
    failed := None;
    assert groups[..|groups|] == groups;
  }

  /** The check as it runs. */
  method CheckReportGroups(value: Fields, inputs: Inputs) returns (error: Option<string>)
    ensures error == ReportGroupsError(value, inputs)
  {
    if value.Keys != {"groups"} || !value["groups"].JArr? || value["groups"].items == [] {
      return Some(NO_GROUPS);
    }
    var expected := ReportIds(inputs);
    if expected == {} || |expected| != |inputs| {
      return Some(BAD_REPORTS);
    }
    var failed, actual := Collect(value["groups"].items);
    if failed.Some? {
      return failed;
    }
    if |actual| != |expected| || AsJson(actual) != expected {
      return Some(NOT_A_PARTITION);
    }
    return None;
  }

  function ValidationError(kind: string, value: Json, inputs: Inputs): Option<string> {
    if !KnownType(kind) then Some(UNKNOWN_TYPE)
    else if !value.JObj? then Some(NOT_AN_OBJECT)
    else if kind == TASK_ANSWER then TaskAnswerError(value.fields)
    else if kind == REPORT_EXTRACTION then ReportExtractionError(value.fields, inputs)
    else ReportGroupsError(value.fields, inputs)
  }

  predicate Accepts(kind: string, value: Json, inputs: Inputs) {
    ValidationError(kind, value, inputs).None?
  }

  const JUDGMENT_KEYS := {"confidence", "reason", "concern"}

  /** What a worker's reply is checked and stored as: its self-assessment is split off first. */
  function WithoutJudgment(value: Json): Json {
    if value.JObj? then JObj(value.fields - JUDGMENT_KEYS) else value
  }

  // ---- What is accepted, spelled out ----

  lemma {:induction false} TrimmedBlank(s: string)
    ensures TrimRight(s) == "" <==> Blank(s)
    ensures TrimLeft(s) == "" <==> Blank(s)
    ensures !Blank(s) ==> !Blank(TrimLeft(s))
    decreases |s|
  {
    if s != "" {
      var n := |s| - 1;
      if IsSpace(s[n]) {
        TrimmedBlank(s[..n]);
      }
      if IsSpace(s[0]) {
        TrimmedBlank(s[1..]);
        assert forall i :: 0 < i < |s| ==> s[i] == s[1..][i - 1];
      }
    }
  }

  /** An answer is accepted exactly if it is the object's only field and a text that is neither blank nor too long. */
  lemma AnswerAcceptedIff(value: Json, inputs: Inputs)
    ensures Accepts(TASK_ANSWER, value, inputs) <==>
      exists text :: value == JObj(map["answer" := JStr(text)]) && !Blank(text) && |Strip(text)| <= 16000
  {
    if value.JObj? && value.fields.Keys == {"answer"} && value.fields["answer"].JStr? {
      var text := value.fields["answer"].s;
      assert value.fields == map["answer" := JStr(text)];
      TrimmedBlank(text);
      TrimmedBlank(TrimLeft(text));
      assert value == JObj(map["answer" := JStr(text)]);
    }
    forall text | value == JObj(map["answer" := JStr(text)]) ensures value.fields.Keys == {"answer"} {
    }
  }

  /** The reply is an extraction of this report: some of its source's text, and not just white space. */
  ghost predicate Quotes(value: Json, report: string, quote: string, inputs: Inputs) {
    && value == JObj(map["report_id" := JStr(report), "quote" := JStr(quote)])
    && "sources." + report in inputs && inputs["sources." + report].JStr?
    && !Blank(quote) && Occurs(quote, inputs["sources." + report].s)
    && forall ref :: ref in inputs && "sources." <= ref ==> ref == "sources." + report
  }

  /** An extraction is accepted exactly if it quotes the only source it was given. */
  lemma ExtractionAcceptedIff(value: Json, inputs: Inputs)
    ensures Accepts(REPORT_EXTRACTION, value, inputs) <==> exists report, quote :: Quotes(value, report, quote, inputs)
  {
    if Accepts(REPORT_EXTRACTION, value, inputs) {
      var report, quote := value.fields["report_id"].s, value.fields["quote"].s;
      assert value.fields == map["report_id" := JStr(report), "quote" := JStr(quote)];
      forall ref | ref in inputs && "sources." <= ref ensures ref == "sources." + report {
        assert ref in SourceRefs(inputs);
      }
      assert Quotes(value, report, quote, inputs);
    }
    if report, quote :| Quotes(value, report, quote, inputs) {
      assert value.fields["report_id"] == JStr(report) && value.fields["quote"] == JStr(quote);
      assert "sources." == SOURCES + ".";
      assert SourceRefs(inputs) == {SOURCES + "." + report};
    }
  }

  function GroupJson(title: string, ids: seq<string>): Json {
    JObj(map["label" := JStr(title), "report_ids" := JArr(seq(|ids|, i requires 0 <= i < |ids| => JStr(ids[i])))])
  }

  /** A group is well formed exactly if it is a label of at most 300 characters with a list of IDs, neither of them empty. */
  lemma GroupOkIff(group: Json)
    ensures GroupError(group).None? <==>
      exists title: string, ids: seq<string> :: 1 <= |title| <= 300 && ids != [] && group == GroupJson(title, ids)
  {
    if GroupError(group).None? {
      var title, ids := group.fields["label"].s, Members(group);
      assert group.fields["report_ids"].items == GroupJson(title, ids).fields["report_ids"].items;
      assert group.fields == GroupJson(title, ids).fields;
      assert group == GroupJson(title, ids);
    }
    forall title: string, ids: seq<string> | 1 <= |title| <= 300 && ids != [] && group == GroupJson(title, ids)
      ensures GroupError(group).None?
    {
      assert group.fields.Keys == {"label", "report_ids"};
    }
  }

  /** A reply is checked and stored as if its self-assessment were not there, whatever that says; nothing else is dropped. */
  lemma JudgmentIsDropped(answer: Fields, judgment: Fields)
    requires judgment.Keys <= {"confidence", "reason", "concern"} && answer.Keys !! {"confidence", "reason", "concern"}
    ensures WithoutJudgment(JObj(answer + judgment)) == JObj(answer)
  {
    assert (answer + judgment) - JUDGMENT_KEYS == answer;
  }

  /** Only an accepted extraction carries a report ID; answers and groupings never do. */
  lemma OnlyExtractionsCarryReports(kind: string, value: Json, inputs: Inputs)
    requires Accepts(kind, value, inputs) && value.JObj? && "report_id" in value.fields
    ensures kind == REPORT_EXTRACTION
    ensures "quote" in value.fields && value.fields["report_id"].JStr? && value.fields["quote"].JStr?
    ensures var ref := SOURCES + "." + value.fields["report_id"].s;
      && SourceRefs(inputs) == {ref} && ref in inputs && inputs[ref].JStr?
      && Occurs(value.fields["quote"].s, inputs[ref].s)
  {
    assert "report_id" in value.fields.Keys;
    assert "report_id" !in {"answer"} && "report_id" !in {"groups"};
    assert "quote" in {"report_id", "quote"};
  }

  function Image<K, V>(m: map<K, V>, keys: set<K>): set<V>
    requires keys <= m.Keys
  {
    set k | k in keys :: m[k]
  }

  /** A map takes no more values than it has keys, and as many only if no two keys share one. */
  lemma {:induction false} ImageSize<K, V>(m: map<K, V>, keys: set<K>)
    requires keys <= m.Keys
    ensures |Image(m, keys)| <= |keys|
    ensures |Image(m, keys)| == |keys| <==> forall a, b :: a in keys && b in keys && a != b ==> m[a] != m[b]
  {
    if keys != {} {
      var k :| k in keys;
      ImageSize(m, keys - {k});
      ImageGrows(m, keys, k);
    }
  }

  lemma ImageGrows<K, V>(m: map<K, V>, keys: set<K>, k: K)
    requires keys <= m.Keys && k in keys
    ensures Image(m, keys) == Image(m, keys - {k}) + {m[k]}
    ensures |Image(m, keys)| <= |Image(m, keys - {k})| + 1
    ensures |Image(m, keys)| == |Image(m, keys - {k})| + 1 <==> forall a :: a in keys && a != k ==> m[a] != m[k]
  {
    var rest := Image(m, keys - {k});
    assert Image(m, keys) == rest + {m[k]};
    if a :| a in keys && a != k && m[a] == m[k] {
      assert m[k] in rest;
      assert rest + {m[k]} == rest;
    }
  }

  /** The pigeonhole step: as many IDs as inputs leaves no input without one and no ID shared. */
  lemma AsManyIdsAsInputs(inputs: Inputs)
    requires |ReportIds(inputs)| == |inputs|
    ensures CarriesReport(inputs) == inputs.Keys
    ensures forall a, b :: a in inputs && b in inputs && a != b ==>
      inputs[a].fields["report_id"] != inputs[b].fields["report_id"]
  {
    var carried := map ref | ref in CarriesReport(inputs) :: inputs[ref].fields["report_id"];
    forall id | id in ReportIds(inputs) ensures id in Image(carried, carried.Keys) {
      var ref :| ref in CarriesReport(inputs) && inputs[ref].fields["report_id"] == id;
      assert carried[ref] == id;
    }
    assert Image(carried, carried.Keys) == ReportIds(inputs);
    ImageSize(carried, carried.Keys);
    assert carried.Keys <= inputs.Keys;
    SubsetSize(carried.Keys, inputs.Keys);
  }

  ghost predicate WellFormedGroups(groups: seq<Json>) {
    forall i :: 0 <= i < |groups| ==> GroupError(groups[i]).None?
  }

  /** A nonempty list of groups, each with a label and at least one ID. */
  ghost predicate WellGrouped(value: Json) {
    && value.JObj? && value.fields.Keys == {"groups"} && value.fields["groups"].JArr?
    && value.fields["groups"].items != [] && WellFormedGroups(value.fields["groups"].items)
  }

  ghost function ListsOf(groups: seq<Json>): (lists: seq<seq<string>>)
    requires WellFormedGroups(groups)
    ensures |lists| == |groups| && forall i :: 0 <= i < |groups| ==> lists[i] == Members(groups[i])
  {
    seq(|groups|, i requires 0 <= i < |groups| => Members(groups[i]))
  }

  /** The lists of IDs of a grouping. */
  ghost function Groups(value: Json): (lists: seq<seq<string>>)
    requires WellGrouped(value)
  {
    ListsOf(value.fields["groups"].items)
  }

  /** Position k of group i within the list of all IDs. */
  lemma {:induction false} MemberPosition(groups: seq<Json>, i: nat, k: nat) returns (at: nat)
    requires forall i :: 0 <= i < |groups| ==> GroupError(groups[i]).None?
    requires i < |groups| && k < |Members(groups[i])|
    ensures at < |AllMembers(groups)| && AllMembers(groups)[at] == Members(groups[i])[k]
    ensures at == |AllMembers(groups[..i])| + k
  {
    var last := |groups| - 1;
    if i == last {
      at := |AllMembers(groups[..last])| + k;
    } else {
      assert groups[..last][..i] == groups[..i];
      at := MemberPosition(groups[..last], i, k);
    }
  }

  lemma {:induction false} PrefixMembersGrow(groups: seq<Json>, i: nat, j: nat)
    requires forall i :: 0 <= i < |groups| ==> GroupError(groups[i]).None?
    requires i < j <= |groups|
    ensures |AllMembers(groups[..i])| + |Members(groups[i])| <= |AllMembers(groups[..j])|
    decreases j
  {
    assert groups[..j][..j - 1] == groups[..j - 1];
    if i < j - 1 {
      PrefixMembersGrow(groups, i, j - 1);
    }
  }

  lemma {:induction false} EveryMemberListed(groups: seq<Json>, id: string)
    requires forall i :: 0 <= i < |groups| ==> GroupError(groups[i]).None?
    requires id in AllMembers(groups)
    ensures exists i :: 0 <= i < |groups| && id in Members(groups[i])
  {
    var last := |groups| - 1;
    if id in Members(groups[last]) {
    } else {
      EveryMemberListed(groups[..last], id);
      var i :| 0 <= i < last && id in Members(groups[..last][i]);
      assert id in Members(groups[i]);
    }
  }

  /** Within and across the lists, no ID occurs at two places. */
  ghost predicate NoRepeats(lists: seq<seq<string>>) {
    forall i, k, j, l ::
      0 <= i < |lists| && 0 <= k < |lists[i]| && 0 <= j < |lists| && 0 <= l < |lists[j]| && lists[i][k] == lists[j][l]
      ==> i == j && k == l
  }

  lemma AcceptedMembersDistinct(value: Json, inputs: Inputs)
    requires Accepts(REPORT_GROUPS, value, inputs)
    ensures Distinct(AllMembers(value.fields["groups"].items))
  {
    var all := AllMembers(value.fields["groups"].items);
    DistinctCount(all);
    var strings, jsons := Elements(all), AsJson(all);
    SameSize(strings, jsons);
  }

  lemma {:induction false} SameSize(strings: set<string>, jsons: set<Json>)
    requires jsons == set s | s in strings :: JStr(s)
    ensures |jsons| == |strings|
  {
    if strings != {} {
      var s :| s in strings;
      assert jsons - {JStr(s)} == set t | t in strings - {s} :: JStr(t);
      SameSize(strings - {s}, jsons - {JStr(s)});
    }
  }

  /** The report is listed in one of the groups. */
  ghost predicate Listed(lists: seq<seq<string>>, report: Json) {
    report.JStr? && exists i :: 0 <= i < |lists| && report.s in lists[i]
  }

  /**
   Every input carries one report, no two inputs the same one, no ID is listed twice within or across
   groups, and the listed IDs are exactly the inputs' reports.
   */
  ghost predicate ExactPartition(value: Json, inputs: Inputs) {
    && WellGrouped(value)
    && CarriesReport(inputs) == inputs.Keys
    && (forall a, b :: a in inputs && b in inputs && a != b ==>
          inputs[a].fields["report_id"] != inputs[b].fields["report_id"])
    && NoRepeats(Groups(value))
    && (forall report: Json :: report in ReportIds(inputs) <==> Listed(Groups(value), report))
  }

  lemma DistinctIsListedOnce(groups: seq<Json>)
    requires WellFormedGroups(groups) && Distinct(AllMembers(groups))
    ensures NoRepeats(ListsOf(groups))
  {
    var lists := ListsOf(groups);
    forall i, k, j, l | 0 <= i < |lists| && 0 <= k < |lists[i]| && 0 <= j < |lists| && 0 <= l < |lists[j]|
      && lists[i][k] == lists[j][l] ensures i == j && k == l
    {
      var a := MemberPosition(groups, i, k);
      var b := MemberPosition(groups, j, l);
      if i < j {
        PrefixMembersGrow(groups, i, j);
      } else if j < i {
        PrefixMembersGrow(groups, j, i);
      }
    }
  }

  lemma ListedIsMember(groups: seq<Json>, id: string)
    requires WellFormedGroups(groups)
    ensures id in AllMembers(groups) <==> exists i :: 0 <= i < |groups| && id in ListsOf(groups)[i]
  {
    if id in AllMembers(groups) {
      EveryMemberListed(groups, id);
      var i :| 0 <= i < |groups| && id in Members(groups[i]);
      assert id in ListsOf(groups)[i];
    }
    if i :| 0 <= i < |groups| && id in ListsOf(groups)[i] {
      var k :| 0 <= k < |Members(groups[i])| && Members(groups[i])[k] == id;
      var at := MemberPosition(groups, i, k);
    }
  }

  /** The reports listed in the groups are the collected IDs. */
  lemma ListedIsCollected(groups: seq<Json>, report: Json)
    requires WellFormedGroups(groups)
    ensures report in AsJson(AllMembers(groups)) <==> Listed(ListsOf(groups), report)
  {
    if report.JStr? {
      ListedIsMember(groups, report.s);
    }
  }

  /** An accepted grouping partitions the reports of its inputs. */
  lemma GroupingIsPartition(value: Json, inputs: Inputs)
    requires Accepts(REPORT_GROUPS, value, inputs)
    ensures ExactPartition(value, inputs)
  {
    AsManyIdsAsInputs(inputs);
    AcceptedMembersDistinct(value, inputs);
    var groups := value.fields["groups"].items;
    DistinctIsListedOnce(groups);
    forall report: Json ensures report in ReportIds(inputs) <==> Listed(Groups(value), report) {
      ListedIsCollected(groups, report);
    }
  }

  // ---- And nothing else is refused ----

  lemma {:induction false} ListedOnceIsDistinct(groups: seq<Json>)
    requires WellFormedGroups(groups) && NoRepeats(ListsOf(groups))
    ensures Distinct(AllMembers(groups))
  {
    if groups != [] {
      var last := |groups| - 1;
      var front, lists := groups[..last], ListsOf(groups);
      assert forall i :: 0 <= i < last ==> ListsOf(front)[i] == lists[i];
      ListedOnceIsDistinct(front);
      forall id | id in AllMembers(front) ensures id !in lists[last] {
        EveryMemberListed(front, id);
        var i :| 0 <= i < last && id in Members(front[i]);
        var k :| 0 <= k < |lists[i]| && lists[i][k] == id;
        assert forall l :: 0 <= l < |lists[last]| ==> lists[last][l] != lists[i][k];
      }
      AppendDistinct(AllMembers(front), lists[last]);
    }
  }

  lemma AppendDistinct(a: seq<string>, b: seq<string>)
    requires Distinct(a) && Distinct(b) && forall x :: x in a ==> x !in b
    ensures Distinct(a + b)
  {
    forall i, j | 0 <= i < j < |a + b| ensures (a + b)[i] != (a + b)[j] {
      if i < |a| <= j {
        assert a[i] in a && b[j - |a|] in b;
      }
    }
  }

  lemma OneReportEach(inputs: Inputs)
    requires CarriesReport(inputs) == inputs.Keys
    requires forall a, b :: a in inputs && b in inputs && a != b ==>
      inputs[a].fields["report_id"] != inputs[b].fields["report_id"]
    ensures |ReportIds(inputs)| == |inputs|
  {
    var carried := map ref | ref in inputs && ref in CarriesReport(inputs) :: inputs[ref].fields["report_id"];
    forall id | id in ReportIds(inputs) ensures id in Image(carried, carried.Keys) {
      var ref :| ref in CarriesReport(inputs) && inputs[ref].fields["report_id"] == id;
      assert carried[ref] == id;
    }
    assert Image(carried, carried.Keys) == ReportIds(inputs);
    assert carried.Keys == inputs.Keys;
    ImageSize(carried, carried.Keys);
  }

  lemma PartitionListsAll(value: Json, inputs: Inputs)
    requires ExactPartition(value, inputs)
    ensures AsJson(AllMembers(value.fields["groups"].items)) == ReportIds(inputs)
    ensures |AllMembers(value.fields["groups"].items)| == |ReportIds(inputs)|
  {
    var groups := value.fields["groups"].items;
    var all := AllMembers(groups);
    forall report: Json ensures report in AsJson(all) <==> Listed(Groups(value), report) {
      ListedIsCollected(groups, report);
    }
    assert AsJson(all) == ReportIds(inputs);
    ListedOnceIsDistinct(groups);
    DistinctCount(all);
    SameSize(Elements(all), AsJson(all));
  }

  /** A grouping is accepted exactly if it partitions the reports of its inputs, and there are inputs. */
  lemma AcceptedIffPartition(value: Json, inputs: Inputs)
    ensures Accepts(REPORT_GROUPS, value, inputs) <==> ExactPartition(value, inputs) && inputs != map[]
  {
    if Accepts(REPORT_GROUPS, value, inputs) {
      GroupingIsPartition(value, inputs);
      AsManyIdsAsInputs(inputs);
    }
    if ExactPartition(value, inputs) && inputs != map[] {
      PartitionListsAll(value, inputs);
      OneReportEach(inputs);
      assert inputs.Keys != {};
    }
  }
}
