/** How long two or more subtasks ran at the same time: a sweep over call starts and ends. */
module Sweeps {
  import opened Json

  datatype Call = Call(operation: string, taskId: string, tier: string, started: Option<int>, elapsed: Option<nat>)

  /** A call as the half-open interval of milliseconds [from, to). */
  datatype Interval = Interval(from: int, to: int)

  predicate IsWork(c: Call) {
    c.operation == "work" && c.started.Some?
  }

  function WorkOf(calls: seq<Call>): (work: seq<Call>)
    ensures forall i :: 0 <= i < |work| ==> IsWork(work[i])
  {
    if calls == [] then []
    else
      var n := |calls| - 1;
      WorkOf(calls[..n]) + if IsWork(calls[n]) then [calls[n]] else []
  }

  function IntervalOf(c: Call): (i: Interval)
    requires IsWork(c)
    ensures i.from <= i.to
  {
    Interval(c.started.value, c.started.value + if c.elapsed.Some? then c.elapsed.value else 0)
  }

  function Intervals(work: seq<Call>): (r: seq<Interval>)
    requires forall i :: 0 <= i < |work| ==> IsWork(work[i])
    ensures |r| == |work| && forall i :: 0 <= i < |r| ==> r[i] == IntervalOf(work[i])
  {
    seq(|work|, i requires 0 <= i < |work| => IntervalOf(work[i]))
  }

  // ---- The simple definition ----

  /** How many of the intervals contain millisecond t. */
  function Cover(intervals: seq<Interval>, t: int): nat {
    if intervals == [] then 0
    else
      var n := |intervals| - 1;
      Cover(intervals[..n], t) + if intervals[n].from <= t < intervals[n].to then 1 else 0
  }

  /** The milliseconds in [lo, hi) that at least two intervals contain. */
  function Overlap(intervals: seq<Interval>, lo: int, hi: int): set<int> {
    set t | lo <= t < hi && Cover(intervals, t) >= 2
  }

  // ---- Edges ----

  datatype Edge = Edge(moment: int, change: int)

  /** Tuple order: by moment, then by change, so an end comes before a start at the same moment. */
  predicate Leq(a: Edge, b: Edge) {
    a.moment < b.moment || (a.moment == b.moment && a.change <= b.change)
  }

  function EdgesOf(intervals: seq<Interval>): seq<Edge> {
    if intervals == [] then []
    else
      var n := |intervals| - 1;
      EdgesOf(intervals[..n]) + [Edge(intervals[n].from, 1), Edge(intervals[n].to, -1)]
  }

  ghost predicate Sorted(edges: seq<Edge>) {
    forall i, j :: 0 <= i < j < |edges| ==> Leq(edges[i], edges[j])
  }

  function Insert(edges: seq<Edge>, e: Edge): (r: seq<Edge>)
    ensures |r| == |edges| + 1
  {
    if edges == [] || Leq(edges[|edges| - 1], e) then edges + [e]
    else Insert(edges[..|edges| - 1], e) + [edges[|edges| - 1]]
  }

  function Sort(edges: seq<Edge>): (r: seq<Edge>)
    ensures |r| == |edges|
  {
    if edges == [] then [] else Insert(Sort(edges[..|edges| - 1]), edges[|edges| - 1])
  }

  /** The running count once every edge up to and including moment t has been taken. */
  function Net(edges: seq<Edge>, t: int): int {
    if edges == [] then 0
    else
      var n := |edges| - 1;
      Net(edges[..n], t) + if edges[n].moment <= t then edges[n].change else 0
  }

  lemma NetAppend(edges: seq<Edge>, e: Edge, t: int)
    ensures Net(edges + [e], t) == Net(edges, t) + if e.moment <= t then e.change else 0
  {
    assert (edges + [e])[..|edges|] == edges;
  }

  lemma {:induction false} InsertElements(edges: seq<Edge>, e: Edge)
    ensures forall x :: x in Insert(edges, e) <==> x in edges || x == e
  {
    if edges != [] && !Leq(edges[|edges| - 1], e) {
      var n := |edges| - 1;
      InsertElements(edges[..n], e);
      assert edges == edges[..n] + [edges[n]];
    }
  }

  lemma {:induction false} InsertSorts(edges: seq<Edge>, e: Edge)
    requires Sorted(edges)
    ensures Sorted(Insert(edges, e))
  {
    if edges != [] && !Leq(edges[|edges| - 1], e) {
      var n := |edges| - 1;
      InsertSorts(edges[..n], e);
      InsertElements(edges[..n], e);
      forall i | 0 <= i < |Insert(edges[..n], e)| ensures Leq(Insert(edges[..n], e)[i], edges[n]) {
        assert Insert(edges[..n], e)[i] in Insert(edges[..n], e);
      }
    }
  }

  lemma {:induction false} InsertCounts(edges: seq<Edge>, e: Edge, t: int)
    ensures Net(Insert(edges, e), t) == Net(edges, t) + if e.moment <= t then e.change else 0
  {
    if edges == [] || Leq(edges[|edges| - 1], e) {
      NetAppend(edges, e, t);
    } else {
      var n := |edges| - 1;
      InsertCounts(edges[..n], e, t);
      NetAppend(Insert(edges[..n], e), edges[n], t);
    }
  }

  lemma InsertKeeps(edges: seq<Edge>, e: Edge, t: int)
    requires Sorted(edges)
    ensures Sorted(Insert(edges, e)) && Net(Insert(edges, e), t) == Net(edges, t) + if e.moment <= t then e.change else 0
    ensures forall x :: x in Insert(edges, e) <==> x in edges || x == e
  {
    InsertElements(edges, e);
    InsertSorts(edges, e);
    InsertCounts(edges, e, t);
  }

  lemma {:induction false} SortKeeps(edges: seq<Edge>, t: int)
    ensures Sorted(Sort(edges)) && Net(Sort(edges), t) == Net(edges, t)
    ensures forall x :: x in Sort(edges) <==> x in edges
  {
    if edges != [] {
      var n := |edges| - 1;
      assert edges == edges[..n] + [edges[n]];
      SortKeeps(edges[..n], t);
      InsertKeeps(Sort(edges[..n]), edges[n], t);
    }
  }

  /** Starts count up and ends count down, so the net count at t is the number of intervals that contain t. */
  lemma {:induction false} NetIsCover(intervals: seq<Interval>, t: int)
    requires forall i :: 0 <= i < |intervals| ==> intervals[i].from <= intervals[i].to
    ensures Net(EdgesOf(intervals), t) == Cover(intervals, t)
  {
    if intervals != [] {
      var n := |intervals| - 1;
      var rest, last := EdgesOf(intervals[..n]), intervals[n];
      NetIsCover(intervals[..n], t);
      NetAppend(rest, Edge(last.from, 1), t);
      NetAppend(rest + [Edge(last.from, 1)], Edge(last.to, -1), t);
      assert EdgesOf(intervals) == rest + [Edge(last.from, 1)] + [Edge(last.to, -1)];
    }
  }

  lemma SortedNetIsCover(intervals: seq<Interval>, t: int)
    requires forall i :: 0 <= i < |intervals| ==> intervals[i].from <= intervals[i].to
    ensures Net(Sort(EdgesOf(intervals)), t) == Cover(intervals, t)
  {
    SortKeeps(EdgesOf(intervals), t);
    NetIsCover(intervals, t);
  }

  /** The sum of the changes among the first i edges. */
  function Running(edges: seq<Edge>, i: nat): int
    requires i <= |edges|
  {
    if i == 0 then 0 else Running(edges, i - 1) + edges[i - 1].change
  }

  /** Strictly between two neighbouring edges, the running count is the net count. */
  lemma {:induction false} RunningIsNet(edges: seq<Edge>, i: nat, t: int)
    requires i <= |edges| && (forall k :: 0 <= k < i ==> edges[k].moment <= t)
    requires forall k :: i <= k < |edges| ==> edges[k].moment > t
    ensures Running(edges, i) == Net(edges, t)
  {
    if edges != [] {
      var n := |edges| - 1;
      if i == |edges| {
        RunningIsNet(edges[..n], n, t);
        RunningPrefix(edges, n, n);
      } else {
        RunningIsNet(edges[..n], i, t);
        RunningPrefix(edges, i, n);
      }
    }
  }

  lemma {:induction false} RunningPrefix(edges: seq<Edge>, i: nat, n: nat)
    requires i <= n <= |edges|
    ensures Running(edges[..n], i) == Running(edges, i)
  {
    if i > 0 {
      RunningPrefix(edges, i - 1, n);
    }
  }

  predicate Between(lo: int, t: int, hi: int) {
    lo <= t < hi
  }

  function Stretch(lo: int, hi: int): set<int> {
    set t: int | lo <= t < hi && Between(lo, t, hi)
  }

  lemma {:induction false} StretchSize(lo: int, hi: int)
    requires lo <= hi
    ensures |Stretch(lo, hi)| == hi - lo
    decreases hi - lo
  {
    if lo < hi {
      StretchSize(lo, hi - 1);
      assert forall t :: Between(lo, t, hi) <==> Between(lo, t, hi - 1) || t == hi - 1;
      assert Stretch(lo, hi) == Stretch(lo, hi - 1) + {hi - 1};
    } else {
      assert Stretch(lo, hi) == {};
    }
  }

  /** One stretch between neighbouring edges: all of it overlaps or none of it. */
  lemma StretchOverlap(intervals: seq<Interval>, lo: int, mid: int, hi: int, busy: bool)
    requires lo <= mid <= hi && forall t :: mid <= t < hi ==> (Cover(intervals, t) >= 2 <==> busy)
    ensures |Overlap(intervals, lo, hi)| == |Overlap(intervals, lo, mid)| + if busy then hi - mid else 0
  {
    var before, stretch := Overlap(intervals, lo, mid), Stretch(mid, hi);
    if busy {
      assert Overlap(intervals, lo, hi) == before + stretch;
      StretchSize(mid, hi);
    } else {
      assert Overlap(intervals, lo, hi) == before;
    }
  }

  lemma RunningBetween(edges: seq<Edge>, i: nat, t: int)
    requires Sorted(edges) && 0 < i < |edges| && edges[i - 1].moment <= t < edges[i].moment
    ensures Running(edges, i) == Net(edges, t)
  {
    forall k | 0 <= k < i ensures edges[k].moment <= t {
      assert k == i - 1 || Leq(edges[k], edges[i - 1]);
    }
    forall k | i <= k < |edges| ensures edges[k].moment > t {
      assert k == i || Leq(edges[i], edges[k]);
    }
    RunningIsNet(edges, i, t);
  }

  /** Between edge i - 1 and edge i of the sorted edges, more than one call runs exactly if two cover the moment. */
  lemma BetweenEdges(intervals: seq<Interval>, edges: seq<Edge>, i: nat, t: int)
    requires forall i :: 0 <= i < |intervals| ==> intervals[i].from <= intervals[i].to
    requires edges == Sort(EdgesOf(intervals)) && 0 < i < |edges| && edges[i - 1].moment <= t < edges[i].moment
    ensures Cover(intervals, t) >= 2 <==> Running(edges, i) > 1
  {
    SortKeeps(EdgesOf(intervals), t);
    RunningBetween(edges, i, t);
    SortedNetIsCover(intervals, t);
  }

  /** Outside all the intervals nothing is covered. */
  lemma {:induction false} NothingOutside(intervals: seq<Interval>, t: int)
    requires forall i :: 0 <= i < |intervals| ==> t < intervals[i].from || intervals[i].to <= t
    ensures Cover(intervals, t) == 0
  {
    if intervals != [] {
      NothingOutside(intervals[..|intervals| - 1], t);
    }
  }

  lemma {:induction false} EdgeMembers(intervals: seq<Interval>, i: nat)
    requires i < |intervals|
    ensures Edge(intervals[i].from, 1) in EdgesOf(intervals) && Edge(intervals[i].to, -1) in EdgesOf(intervals)
  {
    if i < |intervals| - 1 {
      EdgeMembers(intervals[..|intervals| - 1], i);
    } else {
      var edges := EdgesOf(intervals);
      assert edges[|edges| - 2] == Edge(intervals[i].from, 1) && edges[|edges| - 1] == Edge(intervals[i].to, -1);
    }
  }

  lemma {:induction false} EdgesWithin(intervals: seq<Interval>, lo: int, hi: int)
    requires forall i :: 0 <= i < |intervals| ==> lo <= intervals[i].from <= intervals[i].to <= hi
    ensures forall x :: x in EdgesOf(intervals) ==> lo <= x.moment <= hi
  {
    if intervals != [] {
      EdgesWithin(intervals[..|intervals| - 1], lo, hi);
    }
  }

  lemma FirstAndLast(edges: seq<Edge>, x: Edge)
    requires Sorted(edges) && x in edges
    ensures edges[0].moment <= x.moment <= edges[|edges| - 1].moment
  {
    var k :| 0 <= k < |edges| && edges[k] == x;
    assert k == 0 || Leq(edges[0], edges[k]);
    assert k == |edges| - 1 || Leq(edges[k], edges[|edges| - 1]);
  }

  /** Nothing is covered before the first edge or from the last one on. */
  lemma NothingBeyondEdges(intervals: seq<Interval>, edges: seq<Edge>, t: int)
    requires edges == Sort(EdgesOf(intervals))
    requires edges == [] || t < edges[0].moment || t >= edges[|edges| - 1].moment
    ensures Cover(intervals, t) == 0
  {
    SortKeeps(EdgesOf(intervals), 0);
    forall i | 0 <= i < |intervals| ensures t < intervals[i].from || intervals[i].to <= t {
      EdgeMembers(intervals, i);
      FirstAndLast(edges, Edge(intervals[i].from, 1));
      FirstAndLast(edges, Edge(intervals[i].to, -1));
    }
    NothingOutside(intervals, t);
  }

  /** So the overlap lies between the first and the last edge. */
  lemma {:induction false} WholeOverlap(intervals: seq<Interval>, edges: seq<Edge>, lo: int, hi: int)
    requires edges == Sort(EdgesOf(intervals)) && edges != []
    requires forall i :: 0 <= i < |intervals| ==> lo <= intervals[i].from <= intervals[i].to <= hi
    ensures Overlap(intervals, lo, hi) == Overlap(intervals, edges[0].moment, edges[|edges| - 1].moment)
  {
    SortKeeps(EdgesOf(intervals), 0);
    EdgesWithin(intervals, lo, hi);
    var first, last := edges[0], edges[|edges| - 1];
    assert first in edges && last in edges;
    forall t | t < first.moment || t >= last.moment ensures Cover(intervals, t) == 0 {
      NothingBeyondEdges(intervals, edges, t);
    }
  }

  /**
   The sweep as it runs. For any range that holds all the calls, the accumulated time is the number of
   milliseconds that at least two half-open call intervals contain, ties and zero-length calls included.
   */
  method Concurrent(intervals: seq<Interval>, ghost lo: int, ghost hi: int) returns (concurrent: int)
    requires forall i :: 0 <= i < |intervals| ==> lo <= intervals[i].from <= intervals[i].to <= hi
    requires lo <= hi
    ensures concurrent == |Overlap(intervals, lo, hi)|
  {
    var edges := Sort(EdgesOf(intervals));
    var running := 0;
    concurrent := 0;
    var previous := if edges == [] then 0 else edges[0].moment;
    ghost var first := previous;
    assert Overlap(intervals, first, first) == {};
    for i := 0 to |edges|
      invariant running == Running(edges, i)
      invariant edges != [] ==> previous == edges[if i == 0 then 0 else i - 1].moment && first <= previous
      invariant concurrent == |Overlap(intervals, first, previous)|
    {
      var e := edges[i];
      NextStretch(intervals, edges, i, first, previous);
      if running > 1 {
        concurrent := concurrent + (e.moment - previous);
      }
      running := running + e.change;
      previous := e.moment;
    }
    if edges == [] {
      assert forall t :: Cover(intervals, t) == 0;
    } else {
      WholeOverlap(intervals, edges, lo, hi);
    }
  }

  lemma NextStretch(intervals: seq<Interval>, edges: seq<Edge>, i: nat, first: int, previous: int)
    requires forall i :: 0 <= i < |intervals| ==> intervals[i].from <= intervals[i].to
    requires edges == Sort(EdgesOf(intervals)) && i < |edges|
    requires previous == edges[if i == 0 then 0 else i - 1].moment && first <= previous
    ensures previous <= edges[i].moment
    ensures |Overlap(intervals, first, edges[i].moment)|
      == |Overlap(intervals, first, previous)| + if Running(edges, i) > 1 then edges[i].moment - previous else 0
  {
    SortKeeps(EdgesOf(intervals), 0);
    if i > 0 {
      assert Leq(edges[i - 1], edges[i]);
      forall t | previous <= t < edges[i].moment ensures Cover(intervals, t) >= 2 <==> Running(edges, i) > 1 {
        BetweenEdges(intervals, edges, i, t);
      }
    }
    StretchOverlap(intervals, first, previous, edges[i].moment, Running(edges, i) > 1);
  }

  // ---- Delegation ----

  /** The tier of the last work call of each subtask. */
  function LastTier(work: seq<Call>): map<string, string> {
    if work == [] then map[] else LastTier(work[..|work| - 1])[work[|work| - 1].taskId := work[|work| - 1].tier]
  }

  /** This is the last work call of its subtask. */
  predicate LastOf(calls: seq<Call>, i: nat)
    requires i < |calls|
  {
    && calls[i].operation == "work" && calls[i].started.Some?
    && forall j :: i < j < |calls| && calls[j].operation == "work" && calls[j].started.Some? ==> calls[j].taskId != calls[i].taskId
  }

  /** The tier recorded for a subtask is that of its last work call. */
  lemma {:induction false} LastTierMeans(calls: seq<Call>, i: nat)
    requires i < |calls| && LastOf(calls, i)
    ensures calls[i].taskId in LastTier(WorkOf(calls)) && LastTier(WorkOf(calls))[calls[i].taskId] == calls[i].tier
  {
    var n := |calls| - 1;
    var front := WorkOf(calls[..n]);
    assert (front + [calls[n]])[..|front|] == front;
    if i < n {
      assert LastOf(calls[..n], i);
      LastTierMeans(calls[..n], i);
      if IsWork(calls[n]) {
        assert WorkOf(calls) == front + [calls[n]];
      } else {
        assert WorkOf(calls) == front;
      }
    }
  }

  lemma {:induction false} LastOne(calls: seq<Call>, id: string) returns (i: nat)
    requires id in WorkIds(calls)
    ensures i < |calls| && LastOf(calls, i) && calls[i].taskId == id
  {
    var n := |calls| - 1;
    if IsWork(calls[n]) && calls[n].taskId == id {
      i := n;
    } else {
      i := LastOne(calls[..n], id);
    }
  }

  /** The subtasks whose last work call was not in the cloud. */
  function LocalAtLast(calls: seq<Call>): set<string> {
    set i | 0 <= i < |calls| && LastOf(calls, i) && calls[i].tier != "cloud" :: calls[i].taskId
  }

  lemma LocalsAtLast(calls: seq<Call>)
    ensures LocalAtLast(calls) == set id | id in LastTier(WorkOf(calls)) && LastTier(WorkOf(calls))[id] != "cloud"
  {
    LastTierKeys(calls);
    forall id ensures id in LocalAtLast(calls) <==> id in LastTier(WorkOf(calls)) && LastTier(WorkOf(calls))[id] != "cloud" {
      if id in LocalAtLast(calls) {
        var i :| 0 <= i < |calls| && LastOf(calls, i) && calls[i].tier != "cloud" && calls[i].taskId == id;
        LastTierMeans(calls, i);
      }
      if id in LastTier(WorkOf(calls)) {
        var i := LastOne(calls, id);
        LastTierMeans(calls, i);
      }
    }
  }

  /** A work call runs from its start for as long as it took; one without a time took none. */
  predicate Works(c: Call, t: int) {
    && c.operation == "work" && c.started.Some? && c.elapsed.Some?
    && c.started.value <= t < c.started.value + c.elapsed.value
  }

  function WorkingAt(calls: seq<Call>, t: int): set<int> {
    set i | 0 <= i < |calls| && Works(calls[i], t)
  }

  lemma WorkingNext(calls: seq<Call>, t: int)
    requires calls != []
    ensures |WorkingAt(calls, t)| == |WorkingAt(calls[..|calls| - 1], t)| + if Works(calls[|calls| - 1], t) then 1 else 0
  {
    var n := |calls| - 1;
    var before := WorkingAt(calls[..n], t);
    assert n !in before && WorkingAt(calls, t) == if Works(calls[n], t) then before + {n} else before;
  }

  lemma CoverNext(work: seq<Call>, c: Call, t: int)
    requires IsWork(c) && forall i :: 0 <= i < |work| ==> IsWork(work[i])
    ensures Cover(Intervals(work + [c]), t) == Cover(Intervals(work), t) + if Works(c, t) then 1 else 0
  {
    assert Intervals(work + [c])[..|work|] == Intervals(work);
  }

  /** The intervals that contain a moment are the work calls that run then. */
  lemma {:induction false} CoverIsWorking(calls: seq<Call>, t: int)
    ensures Cover(Intervals(WorkOf(calls)), t) == |WorkingAt(calls, t)|
  {
    if calls != [] {
      var n := |calls| - 1;
      CoverIsWorking(calls[..n], t);
      WorkingNext(calls, t);
      if IsWork(calls[n]) {
        CoverNext(WorkOf(calls[..n]), calls[n], t);
      } else {
        assert WorkOf(calls) == WorkOf(calls[..n]);
      }
    }
  }

  /** The milliseconds in which at least two work calls run. */
  function Busy(calls: seq<Call>, lo: int, hi: int): set<int> {
    set t | lo <= t < hi && |WorkingAt(calls, t)| >= 2
  }

  lemma OverlapIsBusy(calls: seq<Call>, lo: int, hi: int)
    ensures Overlap(Intervals(WorkOf(calls)), lo, hi) == Busy(calls, lo, hi)
  {
    forall t ensures t in Overlap(Intervals(WorkOf(calls)), lo, hi) <==> t in Busy(calls, lo, hi) {
      CoverIsWorking(calls, t);
    }
  }

  /** Subtasks whose last call was local, subtasks whose last call was in the cloud, and the overlap. */
  method Delegation(calls: seq<Call>, ghost lo: int, ghost hi: int) returns (local: nat, cloud: nat, concurrent: int)
    requires lo <= hi && forall i :: 0 <= i < |calls| && IsWork(calls[i]) ==>
      lo <= IntervalOf(calls[i]).from && IntervalOf(calls[i]).to <= hi
    ensures local == |LocalAtLast(calls)|
    ensures local + cloud == |set i | 0 <= i < |calls| && calls[i].operation == "work" && calls[i].started.Some? :: calls[i].taskId|
    ensures concurrent == |Busy(calls, lo, hi)|
  {
    OverlapIsBusy(calls, lo, hi);
    var work := WorkOf(calls);
    WorkWithin(calls, lo, hi);
    concurrent := Concurrent(Intervals(work), lo, hi);
    var tasks: map<string, string> := map[];
    for i := 0 to |work|
      invariant tasks == LastTier(work[..i])
    {
      assert work[..i + 1][..i] == work[..i];
      tasks := tasks[work[i].taskId := work[i].tier];
    }
    assert work[..|work|] == work;
    var locals := set id | id in tasks && tasks[id] != "cloud";
    LastTierKeys(calls);
    LocalsAtLast(calls);
    SubsetSize(locals, tasks.Keys);
    assert WorkIds(calls) == set i | 0 <= i < |calls| && calls[i].operation == "work" && calls[i].started.Some? :: calls[i].taskId;
    local, cloud := |locals|, |tasks.Keys| - |locals|;
  }

  lemma {:induction false} WorkWithin(calls: seq<Call>, lo: int, hi: int)
    requires forall i :: 0 <= i < |calls| && IsWork(calls[i]) ==>
      lo <= IntervalOf(calls[i]).from && IntervalOf(calls[i]).to <= hi
    ensures forall i :: 0 <= i < |WorkOf(calls)| ==>
      lo <= IntervalOf(WorkOf(calls)[i]).from && IntervalOf(WorkOf(calls)[i]).to <= hi
  {
    if calls != [] {
      WorkWithin(calls[..|calls| - 1], lo, hi);
    }
  }

  function WorkIds(calls: seq<Call>): set<string> {
    set i | 0 <= i < |calls| && IsWork(calls[i]) :: calls[i].taskId
  }

  lemma {:induction false} LastTierKeys(calls: seq<Call>)
    ensures LastTier(WorkOf(calls)).Keys == WorkIds(calls)
  {
    if calls != [] {
      var n := |calls| - 1;
      LastTierKeys(calls[..n]);
      var front := WorkOf(calls[..n]);
      if IsWork(calls[n]) {
        assert WorkOf(calls) == front + [calls[n]] && (front + [calls[n]])[..|front|] == front;
        assert WorkIds(calls) == WorkIds(calls[..n]) + {calls[n].taskId};
      } else {
        assert WorkOf(calls) == front;
        assert WorkIds(calls) == WorkIds(calls[..n]);
      }
    }
  }
}
