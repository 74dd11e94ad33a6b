/** The ladder of models, smallest first, and which of them a subtask tries. */
module Tiers {
  import opened Json

  const CLOUD := "cloud"

  /** Available tiers: no repeats, with the cloud at the top. */
  predicate Ladder(tiers: seq<string>) {
    Distinct(tiers) && tiers != [] && tiers[|tiers| - 1] == CLOUD
  }

  function IndexOf(tiers: seq<string>, tier: string): (i: nat)
    requires tier in tiers
    ensures i < |tiers| && tiers[i] == tier
    ensures forall j :: 0 <= j < i ==> tiers[j] != tier
  {
    if tiers[0] == tier then 0
    else
      assert tiers == [tiers[0]] + tiers[1..];
      1 + IndexOf(tiers[1..], tier)
  }

  function Repeat(tier: string, n: nat): seq<string> {
    seq(n, _ => tier)
  }

  /** The tier for each attempt at a subtask, in order. */
  function WorkerTiers(preferred: string, tiers: seq<string>, attempts: nat, escalate: bool): seq<string>
    requires preferred in tiers
  {
    if preferred == CLOUD then [CLOUD]
    else Repeat(preferred, attempts) + if escalate then tiers[IndexOf(tiers, preferred) + 1..] else []
  }

  /** Attempts only climb, there are at most W + L of them, and the cloud is tried at most once. */
  lemma WorkerTiersClimb(preferred: string, tiers: seq<string>, attempts: nat, escalate: bool)
    requires Ladder(tiers) && preferred in tiers && attempts >= 1
    ensures var tried := WorkerTiers(preferred, tiers, attempts, escalate);
      && 1 <= |tried| <= attempts + |tiers| - 1
      && tried[0] == preferred
      && (forall i :: 0 <= i < |tried| ==> tried[i] in tiers)
      && (forall i, j :: 0 <= i < j < |tried| ==> IndexOf(tiers, tried[i]) <= IndexOf(tiers, tried[j]))
      && (forall i :: 0 <= i < |tried| - 1 ==> tried[i] != CLOUD)
  {
    var tried := WorkerTiers(preferred, tiers, attempts, escalate);
    if preferred != CLOUD {
      var base := IndexOf(tiers, preferred);
      forall i | 0 <= i < |tried|
        ensures tried[i] in tiers
        ensures IndexOf(tiers, tried[i]) == if i < attempts then base else base + 1 + i - attempts
      {
        if i >= attempts {
          assert tried[i] == tiers[base + 1 + i - attempts];
        }
      }
    }
  }

  /**
   In these places the subtask preferred the tier at `base`: a cloud task tries only the cloud; any other tries its own
   tier `attempts` times and then, if it escalates, every larger tier once, smallest first, and nothing else.
   */
  predicate TriesInTurn(tried: seq<string>, tiers: seq<string>, base: nat, attempts: nat, escalate: bool)
    requires base < |tiers|
  {
    if tiers[base] == CLOUD then |tried| == 1 && tried[0] == CLOUD
    else
      && |tried| == attempts + (if escalate then |tiers| - 1 - base else 0)
      && (forall i :: 0 <= i < attempts ==> tried[i] == tiers[base])
      && (forall i :: attempts <= i < |tried| ==> tried[i] == tiers[base + 1 + i - attempts])
  }

  /** No tier but its own is tried twice. */
  predicate LargerOnce(tried: seq<string>, own: string) {
    forall i, j :: 0 <= i < j < |tried| && tried[i] == tried[j] ==> tried[i] == own
  }

  lemma LargerOnceEach(tried: seq<string>, tiers: seq<string>, base: nat, attempts: nat, escalate: bool)
    requires Distinct(tiers) && base < |tiers| && TriesInTurn(tried, tiers, base, attempts, escalate)
    ensures LargerOnce(tried, tiers[base])
  {
  }

  /** What a subtask tries, place by place; one that escalates tries the cloud last, and a local one that does not never. */
  lemma WorkerTiersInTurn(tiers: seq<string>, base: nat, attempts: nat, escalate: bool)
    requires Ladder(tiers) && base < |tiers| && attempts >= 1
    ensures var tried := WorkerTiers(tiers[base], tiers, attempts, escalate);
      && TriesInTurn(tried, tiers, base, attempts, escalate) && LargerOnce(tried, tiers[base])
      && (escalate ==> tried[|tried| - 1] == CLOUD) && (!escalate && tiers[base] != CLOUD ==> CLOUD !in tried)
  {
    assert IndexOf(tiers, tiers[base]) == base;
    LargerOnceEach(WorkerTiers(tiers[base], tiers, attempts, escalate), tiers, base, attempts, escalate);
  }

  const TIER_ORDER := ["local", "mid", CLOUD]

  /** The tiers a provider serves, smallest first. */
  function Available(models: set<string>): seq<string> {
    Keep(TIER_ORDER, models)
  }

  function Keep(tiers: seq<string>, models: set<string>): seq<string> {
    if tiers == [] then []
    else if tiers[0] in models then [tiers[0]] + Keep(tiers[1..], models)
    else Keep(tiers[1..], models)
  }

  /** Every tier but the cloud. */
  function Locals(tiers: seq<string>): (local: seq<string>)
    ensures CLOUD !in local && forall t :: t in local ==> t in tiers
    ensures |local| <= |tiers|
  {
    if tiers == [] then []
    else if tiers[0] != CLOUD then [tiers[0]] + Locals(tiers[1..])
    else Locals(tiers[1..])
  }

  /** Available tiers form a ladder as soon as the cloud is among them, and the local ones keep their order. */
  lemma AvailableIsLadder(models: set<string>)
    requires CLOUD in models
    ensures Ladder(Available(models))
    ensures Locals(Available(models)) ==
      (if "local" in models then ["local"] else []) + (if "mid" in models then ["mid"] else [])
  {
    var all := TIER_ORDER;
    assert all[1..] == ["mid", CLOUD] && all[1..][1..] == [CLOUD] && all[1..][1..][1..] == [];
    assert Keep([CLOUD], models) == [CLOUD];
    assert Keep(["mid", CLOUD], models) == (if "mid" in models then ["mid"] else []) + [CLOUD];
    var tiers := Available(models);
    assert tiers == (if "local" in models then ["local"] else []) + (if "mid" in models then ["mid"] else []) + [CLOUD];
    LocalsOfLadder(tiers);
  }

  lemma {:induction false} LocalsOfLadder(tiers: seq<string>)
    requires Ladder(tiers)
    ensures Locals(tiers) == tiers[..|tiers| - 1]
  {
    if |tiers| == 1 {
      assert tiers[1..] == [];
    } else {
      LocalsOfLadder(tiers[1..]);
      assert tiers[0] != tiers[|tiers| - 1];
      assert tiers[..|tiers| - 1] == [tiers[0]] + tiers[1..][..|tiers| - 2];
    }
  }
}
