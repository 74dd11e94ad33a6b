/**
 Paths and layers of a task graph. A graph maps every task ID to the IDs it depends on. The three
 loops that layer a plan (Plan.parse, run_tasks and the decision graph) are all measured against
 `LongestPath`, which is stated without reference to any of them.
 */
module Layers {

  type Graph = map<string, set<string>>

  /** Every dependency is itself a task. */
  predicate Closed(g: Graph) {
    forall t :: t in g ==> g[t] <= g.Keys
  }

  /** Consecutive entries are dependency and dependent. */
  ghost predicate IsPath(g: Graph, p: seq<string>) {
    && (forall i :: 0 <= i < |p| ==> p[i] in g)
    && (forall i, j :: 0 <= i < j < |p| && j == i + 1 ==> p[i] in g[p[j]])
  }

  ghost predicate PathTo(g: Graph, p: seq<string>, t: string) {
    IsPath(g, p) && |p| > 0 && p[|p| - 1] == t
  }

  /** No path of two or more entries returns to where it started. */
  ghost predicate Acyclic(g: Graph) {
    forall p :: IsPath(g, p) && |p| >= 2 ==> p[0] != p[|p| - 1]
  }

  /** n is the number of tasks on the longest dependency path that ends in t. */
  ghost predicate LongestPath(g: Graph, t: string, n: nat) {
    && (exists p :: PathTo(g, p, t) && |p| == n)
    && (forall p :: PathTo(g, p, t) ==> |p| <= n)
  }

  /** Every task is labelled with the length of the longest path to it. */
  ghost predicate IsLayering(g: Graph, layer: map<string, nat>) {
    layer.Keys == g.Keys && forall t :: t in g ==> LongestPath(g, t, layer[t])
  }

  /** Labels that strictly increase along every dependency. */
  ghost predicate IsRanking(g: Graph, rank: map<string, nat>) {
    && rank.Keys == g.Keys
    && forall t, d :: t in g && d in g[t] && d in g ==> rank[d] < rank[t]
  }

  lemma LongestPathUnique(g: Graph, t: string, m: nat, n: nat)
    requires LongestPath(g, t, m) && LongestPath(g, t, n)
    ensures m == n
  {
    var p :| PathTo(g, p, t) && |p| == m;
    var q :| PathTo(g, q, t) && |q| == n;
    assert |p| <= n && |q| <= m;
  }

  /** A graph has at most one layering, so loops that each produce one agree. */
  lemma LayeringUnique(g: Graph, a: map<string, nat>, b: map<string, nat>)
    requires IsLayering(g, a) && IsLayering(g, b)
    ensures a == b
  {
    forall t | t in g ensures a[t] == b[t] {
      LongestPathUnique(g, t, a[t], b[t]);
    }
  }

  /** The recurrence behind all three loops: one more than the largest layer below. */
  lemma LongestPathStep(g: Graph, t: string, n: nat)
    requires t in g && g[t] <= g.Keys
    requires forall d :: d in g[t] ==> exists m: nat :: m <= n && LongestPath(g, d, m)
    requires n > 0 ==> exists d :: d in g[t] && LongestPath(g, d, n)
    ensures LongestPath(g, t, n + 1)
  {
    if n == 0 {
      assert PathTo(g, [t], t);
    } else {
      var d :| d in g[t] && LongestPath(g, d, n);
      var p :| PathTo(g, p, d) && |p| == n;
      var q := p + [t];
      assert PathTo(g, q, t) && |q| == n + 1;
    }
    forall p | PathTo(g, p, t) ensures |p| <= n + 1 {
      if |p| >= 2 {
        var d := p[|p| - 2];
        assert d in g[p[|p| - 1]];
        var m: nat :| m <= n && LongestPath(g, d, m);
        var q := p[..|p| - 1];
        assert PathTo(g, q, d);
      }
    }
  }

  lemma {:induction false} RankGrowsAlongPath(g: Graph, rank: map<string, nat>, p: seq<string>)
    requires IsRanking(g, rank) && IsPath(g, p) && |p| >= 2
    ensures rank[p[0]] < rank[p[|p| - 1]]
  {
    var last := |p| - 1;
    assert p[last - 1] in g[p[last]];
    if |p| > 2 {
      RankGrowsAlongPath(g, rank, p[..last]);
    }
  }

  lemma RankingImpliesAcyclic(g: Graph, rank: map<string, nat>)
    requires IsRanking(g, rank)
    ensures Acyclic(g)
  {
    forall p | IsPath(g, p) && |p| >= 2 ensures p[0] != p[|p| - 1] {
      RankGrowsAlongPath(g, rank, p);
    }
  }

  lemma LayerGrows(g: Graph, t: string, d: string, m: nat, n: nat)
    requires t in g && d in g[t] && LongestPath(g, d, m) && LongestPath(g, t, n)
    ensures m < n
  {
    var p :| PathTo(g, p, d) && |p| == m;
    assert PathTo(g, p + [t], t);
  }

  lemma LayeringIsRanking(g: Graph, layer: map<string, nat>)
    requires IsLayering(g, layer)
    ensures IsRanking(g, layer)
  {
    forall t, d | t in g && d in g[t] && d in g ensures layer[d] < layer[t] {
      LayerGrows(g, t, d, layer[d], layer[t]);
    }
  }

  /** Some entry of a sequence drawn from a smaller set occurs twice. */
  lemma {:induction false} Pigeonhole(p: seq<string>, s: set<string>) returns (i: nat, j: nat)
    requires |p| > |s| && forall k :: 0 <= k < |p| ==> p[k] in s
    ensures i < j < |p| && p[i] == p[j]
  {
    var last := |p| - 1;
    if k :| 0 <= k < last && p[k] == p[last] {
      return k, last;
    }
    i, j := Pigeonhole(p[..last], s - {p[last]});
  }

  /** Walks k dependencies back from t without leaving s. */
  lemma {:induction false} WalkBack(g: Graph, s: set<string>, t: string, k: nat) returns (p: seq<string>)
    requires s <= g.Keys && t in s
    requires forall u :: u in s ==> g[u] * s != {}
    ensures PathTo(g, p, t) && |p| == k + 1
    ensures forall i :: 0 <= i < |p| ==> p[i] in s
    decreases k
  {
    if k == 0 {
      p := [t];
    } else {
      assert g[t] * s != {};
      var d :| d in g[t] * s;
      var q := WalkBack(g, s, d, k - 1);
      p := q + [t];
    }
  }

  lemma PathSlice(g: Graph, p: seq<string>, i: nat, j: nat)
    requires IsPath(g, p) && i <= j <= |p|
    ensures IsPath(g, p[i..j])
  {
  }

  /** In an acyclic graph every non-empty set of tasks has one that depends on none of the others. */
  lemma MinimalExists(g: Graph, s: set<string>)
    requires Acyclic(g) && s <= g.Keys && s != {}
    ensures exists t :: t in s && g[t] * s == {}
  {
    if forall t :: t in s ==> g[t] * s != {} {
      var t :| t in s;
      var p := WalkBack(g, s, t, |s|);
      var i, j := Pigeonhole(p, s);
      assert p[i..j + 1][0] == p[i..j + 1][j - i];
      PathSlice(g, p, i, j + 1);
    }
  }

  // ---- Peeling layers ----

  /** The tasks outside `resolved` whose dependencies all lie inside it. */
  function Ready(g: Graph, resolved: set<string>): set<string> {
    set t | t in g && t !in resolved && g[t] <= resolved
  }

  /** In an acyclic graph something is ready as long as tasks remain. */
  lemma SomethingIsReady(g: Graph, resolved: set<string>)
    requires Closed(g) && Acyclic(g) && resolved <= g.Keys && resolved != g.Keys
    ensures Ready(g, resolved) != {}
  {
    var rest := g.Keys - resolved;
    assert rest != {} by {
      assert resolved + rest == g.Keys;
    }
    MinimalExists(g, rest);
    var t :| t in rest && g[t] * rest == {};
    forall d | d in g[t] ensures d in resolved {
      assert d !in g[t] * rest;
    }
    assert t in Ready(g, resolved);
  }

  /** Nothing is ready although tasks remain: the rest contains a cycle. */
  lemma StuckIsCyclic(g: Graph, resolved: set<string>)
    requires Closed(g) && resolved <= g.Keys && resolved != g.Keys && Ready(g, resolved) == {}
    ensures !Acyclic(g)
  {
    if Acyclic(g) {
      SomethingIsReady(g, resolved);
    }
  }

  /** Task t depends on something that round n resolved or that is not resolved yet. */
  ghost predicate Waits(g: Graph, rounds: map<string, nat>, n: nat, t: string)
    requires t in g
  {
    exists d :: d in g[t] && (d !in rounds || rounds[d] == n)
  }

  /** A layering in progress: n rounds are done, and every other task waits for round n or later. */
  ghost predicate Peeled(g: Graph, rounds: map<string, nat>, n: nat) {
    && rounds.Keys <= g.Keys
    && (forall t :: t in rounds ==> rounds[t] <= n && LongestPath(g, t, rounds[t]))
    && (forall t :: t in rounds ==> g[t] <= rounds.Keys)
    && (forall t {:trigger Waits(g, rounds, n, t)} :: t in g && t !in rounds && n > 0 ==> Waits(g, rounds, n, t))
  }

  function AddRound(rounds: map<string, nat>, ready: set<string>, n: nat): (next: map<string, nat>)
    ensures next.Keys == rounds.Keys + ready
    ensures forall t :: t in next ==> next[t] == if t in ready then n else rounds[t]
  {
    rounds + map t | t in ready :: n
  }

  lemma NextLayer(g: Graph, rounds: map<string, nat>, n: nat, t: string)
    requires Closed(g) && Peeled(g, rounds, n) && t in Ready(g, rounds.Keys)
    ensures LongestPath(g, t, n + 1)
  {
    if n > 0 {
      assert Waits(g, rounds, n, t);
      var d :| d in g[t] && (d !in rounds || rounds[d] == n);
      assert LongestPath(g, d, n);
    }
    forall d | d in g[t] ensures exists m: nat :: m <= n && LongestPath(g, d, m) {
      assert d in rounds;
    }
    LongestPathStep(g, t, n);
  }

  lemma PeelRound(g: Graph, rounds: map<string, nat>, n: nat)
    requires Closed(g) && Peeled(g, rounds, n)
    ensures Peeled(g, AddRound(rounds, Ready(g, rounds.Keys), n + 1), n + 1)
  {
    var ready := Ready(g, rounds.Keys);
    var next := AddRound(rounds, ready, n + 1);
    forall t | t in next ensures next[t] <= n + 1 && LongestPath(g, t, next[t]) {
      if t in ready {
        NextLayer(g, rounds, n, t);
      }
    }
    forall t | t in g && t !in next ensures Waits(g, next, n + 1, t) {
      var d :| d in g[t] && d !in rounds;
      assert d !in next || d in ready;
    }
  }

  lemma RoundGrows(rounds: map<string, nat>, ready: set<string>, n: nat)
    requires rounds.Keys * ready == {}
    ensures |AddRound(rounds, ready, n).Keys| == |rounds.Keys| + |ready|
  {
  }

  lemma PeeledAll(g: Graph, rounds: map<string, nat>, n: nat)
    requires Peeled(g, rounds, n) && rounds.Keys == g.Keys
    ensures IsLayering(g, rounds) && Acyclic(g)
  {
    LayeringIsRanking(g, rounds);
    RankingImpliesAcyclic(g, rounds);
  }
}
