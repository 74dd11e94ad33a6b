/** Sums of natural numbers over a finite set of keys. */
module Sums {

  ghost function Sum<K>(keys: set<K>, f: map<K, nat>): nat
    requires keys <= f.Keys
  {
    if keys == {} then 0
    else
      var k :| k in keys;
      f[k] + Sum(keys - {k}, f)
  }

  /** Any key may be taken out first. */
  lemma {:induction false} SumRemove<K>(keys: set<K>, f: map<K, nat>, k: K)
    requires keys <= f.Keys && k in keys
    ensures Sum(keys, f) == f[k] + Sum(keys - {k}, f)
  {
    var first :| first in keys && Sum(keys, f) == f[first] + Sum(keys - {first}, f);
    if first != k {
      SumRemove(keys - {first}, f, k);
      SumRemove(keys - {k}, f, first);
      assert keys - {first} - {k} == keys - {k} - {first};
    }
  }

  lemma {:induction false} SumAgree<K>(keys: set<K>, f: map<K, nat>, g: map<K, nat>)
    requires keys <= f.Keys && keys <= g.Keys
    requires forall k :: k in keys ==> f[k] == g[k]
    ensures Sum(keys, f) == Sum(keys, g)
  {
    if keys != {} {
      var k :| k in keys;
      SumRemove(keys, f, k);
      SumRemove(keys, g, k);
      SumAgree(keys - {k}, f, g);
    }
  }

  /** Changing one summand changes the sum by the same amount. */
  lemma SumChange<K>(keys: set<K>, f: map<K, nat>, g: map<K, nat>, k: K)
    requires keys <= f.Keys && keys <= g.Keys && k in keys
    requires forall j :: j in keys && j != k ==> f[j] == g[j]
    ensures Sum(keys, f) - f[k] == Sum(keys, g) - g[k]
  {
    SumRemove(keys, f, k);
    SumRemove(keys, g, k);
    SumAgree(keys - {k}, f, g);
  }

  lemma {:induction false} SumAtMost<K>(keys: set<K>, f: map<K, nat>, g: map<K, nat>)
    requires keys <= f.Keys && keys <= g.Keys
    requires forall k :: k in keys ==> f[k] <= g[k]
    ensures Sum(keys, f) <= Sum(keys, g)
  {
    if keys != {} {
      var k :| k in keys;
      SumRemove(keys, f, k);
      SumRemove(keys, g, k);
      SumAtMost(keys - {k}, f, g);
    }
  }

  /** One strictly smaller summand among smaller ones makes the sum strictly smaller. */
  lemma SumBelow<K>(keys: set<K>, f: map<K, nat>, g: map<K, nat>, k: K)
    requires keys <= f.Keys && keys <= g.Keys && k in keys && f[k] < g[k]
    requires forall j :: j in keys ==> f[j] <= g[j]
    ensures Sum(keys, f) < Sum(keys, g)
  {
    SumRemove(keys, f, k);
    SumRemove(keys, g, k);
    SumAtMost(keys - {k}, f, g);
  }

  lemma {:induction false} SumBounded<K>(keys: set<K>, f: map<K, nat>, bound: nat)
    requires keys <= f.Keys && forall k :: k in keys ==> f[k] <= bound
    ensures Sum(keys, f) <= |keys| * bound
  {
    if keys != {} {
      var k :| k in keys;
      SumRemove(keys, f, k);
      SumBounded(keys - {k}, f, bound);
      assert |keys| * bound == (|keys| - 1) * bound + bound;
    }
  }

  lemma {:induction false} SumZero<K>(keys: set<K>, f: map<K, nat>)
    requires keys <= f.Keys && forall k :: k in keys ==> f[k] == 0
    ensures Sum(keys, f) == 0
  {
    if keys != {} {
      var k :| k in keys;
      SumRemove(keys, f, k);
      SumZero(keys - {k}, f);
    }
  }
}
