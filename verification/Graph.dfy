/** The decision graph's dependency depth, computed by sweeps that use what the same sweep has filled in. */
module Graphs {
  import opened Json
  import opened Layers
  import opened Plans

  /** `1 + max(rounds[dep] for dep in depends_on, default 0)` */
  function DepthOf(deps: seq<string>, rounds: map<string, nat>): nat
    requires forall d :: d in deps ==> d in rounds
  {
    if deps == [] then 1
    else
      var n := |deps| - 1;
      var rest := DepthOf(deps[..n], rounds);
      if rest <= rounds[deps[n]] then rounds[deps[n]] + 1 else rest
  }

  lemma {:induction false} DepthIsMax(deps: seq<string>, rounds: map<string, nat>)
    requires forall d :: d in deps ==> d in rounds
    ensures DepthOf(deps, rounds) >= 1
    ensures forall d :: d in deps ==> rounds[d] < DepthOf(deps, rounds)
    ensures DepthOf(deps, rounds) > 1 ==> exists d :: d in deps && rounds[d] + 1 == DepthOf(deps, rounds)
  {
    if deps != [] {
      var n := |deps| - 1;
      DepthIsMax(deps[..n], rounds);
      assert deps == deps[..n] + [deps[n]];
      if DepthOf(deps[..n], rounds) <= rounds[deps[n]] {
        assert rounds[deps[n]] + 1 == DepthOf(deps, rounds);
      } else if DepthOf(deps, rounds) > 1 {
        var d :| d in deps[..n] && rounds[d] + 1 == DepthOf(deps[..n], rounds);
        assert d in deps;
      }
    }
  }

  /** Every round filled in so far is a longest path. */
  ghost predicate Labelled(g: Graph, rounds: map<string, nat>) {
    rounds.Keys <= g.Keys && forall t :: t in rounds ==> LongestPath(g, t, rounds[t])
  }

  lemma LabelOne(g: Graph, rounds: map<string, nat>, task: Task)
    requires Labelled(g, rounds) && task.id in g && g[task.id] == Deps(task) && Deps(task) <= rounds.Keys
    ensures Labelled(g, rounds[task.id := DepthOf(task.dependsOn, rounds)])
  {
    var depth := DepthOf(task.dependsOn, rounds);
    DepthIsMax(task.dependsOn, rounds);
    forall d | d in g[task.id] ensures exists m: nat :: m <= depth - 1 && LongestPath(g, d, m) {
      assert LongestPath(g, d, rounds[d]) && rounds[d] <= depth - 1;
    }
    if depth > 1 {
      var d :| d in task.dependsOn && rounds[d] + 1 == depth;
      assert d in g[task.id] && LongestPath(g, d, depth - 1);
    }
    LongestPathStep(g, task.id, depth - 1);
  }

  /** One sweep over the pending tasks; `left` are those it could not label. */
  method Sweep(pending: seq<Task>, before: map<string, nat>, ghost g: Graph)
    returns (left: seq<Task>, rounds: map<string, nat>)
    requires Labelled(g, before) && FromGraph(g, pending)
    ensures Labelled(g, rounds) && before.Keys <= rounds.Keys
    ensures |left| <= |pending| && forall i :: 0 <= i < |left| ==> left[i] in pending
    ensures forall i :: 0 <= i < |pending| ==> pending[i].id in rounds || pending[i] in left
    ensures (exists i :: 0 <= i < |pending| && Deps(pending[i]) <= before.Keys) ==> |left| < |pending|
  {
    left, rounds := [], before;
    for i := 0 to |pending|
      invariant Labelled(g, rounds) && before.Keys <= rounds.Keys
      invariant |left| <= i && forall k :: 0 <= k < |left| ==> left[k] in pending
      invariant forall k :: 0 <= k < i ==> pending[k].id in rounds || pending[k] in left
      invariant (exists k :: 0 <= k < i && Deps(pending[k]) <= before.Keys) ==> |left| < i
    {
      var task := pending[i];
      if Deps(task) <= rounds.Keys {
        LabelOne(g, rounds, task);
        rounds := rounds[task.id := DepthOf(task.dependsOn, rounds)];
      } else {
        left := left + [task];
      }
    }
  }

  /** Tasks taken from the graph g. */
  ghost predicate FromGraph(g: Graph, pending: seq<Task>) {
    forall i :: 0 <= i < |pending| ==> pending[i].id in g && g[pending[i].id] == Deps(pending[i])
  }

  ghost predicate Covered(tasks: seq<Task>, pending: seq<Task>, rounds: map<string, nat>) {
    forall i :: 0 <= i < |tasks| ==> tasks[i].id in rounds || tasks[i] in pending
  }

  lemma CoveredKeys(tasks: seq<Task>, rounds: map<string, nat>)
    requires Covered(tasks, [], rounds)
    ensures Elements(Ids(tasks)) <= rounds.Keys
  {
    forall t | t in Elements(Ids(tasks)) ensures t in rounds {
      var i :| 0 <= i < |tasks| && Ids(tasks)[i] == t;
    }
  }

  lemma AllLabelled(g: Graph, rounds: map<string, nat>)
    requires Labelled(g, rounds) && g.Keys <= rounds.Keys
    ensures IsLayering(g, rounds)
  {
  }

  /** The depths of a validated plan: every task's longest dependency path. */
  method Depths(tasks: seq<Task>) returns (rounds: map<string, nat>)
    requires Distinct(Ids(tasks)) && Closed(GraphOf(tasks)) && Acyclic(GraphOf(tasks))
    ensures IsLayering(GraphOf(tasks), rounds)
  {
    ghost var g := GraphOf(tasks);
    GraphOfTasks(tasks);
    var pending := tasks;
    rounds := map[];
    while pending != []
      invariant Labelled(g, rounds) && FromGraph(g, pending) && Covered(tasks, pending, rounds)
      decreases |pending|
    {
      SomePendingIsReady(tasks, pending, rounds);
      pending, rounds := Sweep(pending, rounds, g);
    }
    CoveredKeys(tasks, rounds);
    AllLabelled(g, rounds);
  }

  /** In an acyclic graph some pending task depends on labelled tasks only. */
  lemma SomePendingIsReady(tasks: seq<Task>, pending: seq<Task>, rounds: map<string, nat>)
    requires Distinct(Ids(tasks)) && Closed(GraphOf(tasks)) && Acyclic(GraphOf(tasks)) && pending != []
    requires FromGraph(GraphOf(tasks), pending) && Covered(tasks, pending, rounds)
    ensures exists i :: 0 <= i < |pending| && Deps(pending[i]) <= rounds.Keys
  {
    var g := GraphOf(tasks);
    GraphOfTasks(tasks);
    var open := set i | 0 <= i < |pending| :: pending[i].id;
    assert pending[0].id in open;
    MinimalExists(g, open);
    var t :| t in open && g[t] * open == {};
    var i :| 0 <= i < |pending| && pending[i].id == t;
    forall d | d in Deps(pending[i]) ensures d in rounds {
      assert d !in g[t] * open;
      var k :| 0 <= k < |tasks| && Ids(tasks)[k] == d;
      assert forall j :: 0 <= j < |pending| ==> pending[j].id in open;
      assert tasks[k].id !in open;
    }
  }
}
