/** The live router and the offline simulator that replays recorded profiles under other settings. */
module Tuning {
  import opened Json
  import opened Tiers
  import opened Policies

  // ---- The live router ----

  datatype Evidence = Evidence(samples: seq<Assessment>, critique: Critique)

  predicate Skips(p: Policy, tier: string, local: seq<string>, complexity: real) {
    p.skipSmallAbove.Some? && |local| > 1 && tier == local[0] && complexity >= p.skipSmallAbove.value
  }

  /** Every local tier has been judged, with everything in range. */
  predicate Judged(local: seq<string>, evidence: map<string, Evidence>) {
    forall i :: 0 <= i < |local| ==>
      local[i] in evidence && SaneEvidence(evidence[local[i]].samples, evidence[local[i]].critique)
  }

  predicate Trusted(p: Policy, m: Measures, text: string, tier: string, e: Evidence)
    requires e.samples != [] && |p.weights| == SIGNALS
  {
    !Decide(p, m, tier, text, e.samples, e.critique)
  }

  /** The first unskipped tier from position i on whose answer is trusted, or the cloud. */
  function LiveFrom(p: Policy, m: Measures, local: seq<string>, text: string, evidence: map<string, Evidence>, i: nat): string
    requires |p.weights| == SIGNALS && Judged(local, evidence)
    decreases |local| - i
  {
    if i >= |local| then CLOUD
    else if !Skips(p, local[i], local, m.complexity(text)) && Trusted(p, m, text, local[i], evidence[local[i]]) then local[i]
    else LiveFrom(p, m, local, text, evidence, i + 1)
  }

  function LiveRoute(p: Policy, m: Measures, tiers: seq<string>, text: string, evidence: map<string, Evidence>): string
    requires |p.weights| == SIGNALS && Judged(Locals(tiers), evidence)
  {
    LiveFrom(p, m, Locals(tiers), text, evidence, 0)
  }

  // ---- The simulator ----

  datatype TierProfile = TierProfile(
    signals: seq<Option<real>>,      // as recorded, rounded
    stats: Option<TokenStats>,       // of the first sample
    answerTokens: nat,
    requested: bool,
    empty: bool,
    critic: Critique,
    correct: Option<bool>
  )

  datatype Profile = Profile(complexity: real, parts: nat, tiers: map<string, TierProfile>, expected: set<string>)

  datatype Params = Params(
    weights: seq<real>,
    thresholds: map<string, real>,
    criticMin: Option<real>,
    skipSmallAbove: Option<real>,
    tokenMax: Option<real>,
    tokenMinLength: nat,
    tokenMean: bool,                 // token_signal == "mean"
    bigGoalParts: Option<nat>
  )

  function SignalsOf(params: Params, t: TierProfile): seq<Option<real>>
    requires |t.signals| == SIGNALS
  {
    if !params.tokenMean then t.signals
    else t.signals[1 := if t.stats.Some? then Some(1.0 - t.stats.value.prob) else None]
  }

  function AtMostOne(x: real): real {
    if x > 1.0 then 1.0 else x
  }

  function SimScore(w: seq<real>, v: seq<Option<real>>): real
    requires |w| == |v|
  {
    AtMostOne(Mean(w, v))
  }

  /** The combiner as it runs: one pass that accumulates weights and weighted signals. */
  method Combiner(w: seq<real>, v: seq<Option<real>>) returns (score: real)
    requires |w| == |v|
    ensures score == SimScore(w, v)
  {
    var total, sum := 0.0, 0.0;
    for i := 0 to |w|
      invariant total == WeightSum(w[..i], v[..i]) && sum == Weighted(w[..i], v[..i])
    {
      assert w[..i + 1][..i] == w[..i] && v[..i + 1][..i] == v[..i];
      if v[i].Some? {
        total := total + w[i];
        sum := sum + w[i] * v[i].value;
      }
    }
    assert w[..|w|] == w && v[..|v|] == v;
    if total == 0.0 {
      return 0.0;
    }
    return AtMostOne(sum / total);
  }

  /** The simulator's view of one tier: no rule objects and the score is below the threshold. */
  predicate SimTrusts(params: Params, tier: string, t: TierProfile)
    requires |t.signals| == SIGNALS == |params.weights| && tier in params.thresholds
  {
    var signals, critic := SignalsOf(params, t), t.critic;
    && !t.requested && !t.empty
    && !(params.criticMin.Some? && !critic.skipped && !critic.passed && critic.severity >= params.criticMin.value)
    && !(tier == "local" && params.tokenMax.Some? && signals[1].Some? && signals[1].value >= params.tokenMax.value
         && t.answerTokens >= params.tokenMinLength)
    && SimScore(params.weights, signals) < params.thresholds[tier]
  }

  predicate SimSkips(params: Params, prof: Profile, i: nat, local: seq<string>) {
    i == 0 && |local| > 1 && params.skipSmallAbove.Some? && prof.complexity >= params.skipSmallAbove.value
  }

  predicate SimBigGoal(params: Params, prof: Profile) {
    params.bigGoalParts.Some? && params.bigGoalParts.value > 0 && prof.parts >= params.bigGoalParts.value
  }

  function SimLocal(prof: Profile): (local: seq<string>)
    ensures forall i :: 0 <= i < |local| ==> local[i] in prof.tiers && local[i] in ["local", "mid"]
  {
    (if "local" in prof.tiers then ["local"] else []) + (if "mid" in prof.tiers then ["mid"] else [])
  }

  predicate Runnable(params: Params, prof: Profile) {
    && |params.weights| == SIGNALS && "local" in params.thresholds && "mid" in params.thresholds
    && forall t :: t in prof.tiers ==> |prof.tiers[t].signals| == SIGNALS
  }

  function SimFrom(params: Params, prof: Profile, local: seq<string>, i: nat): string
    requires Runnable(params, prof)
    requires forall i :: 0 <= i < |local| ==> local[i] in prof.tiers && local[i] in ["local", "mid"]
    decreases |local| - i
  {
    if i >= |local| then CLOUD
    else if !SimSkips(params, prof, i, local) && SimTrusts(params, local[i], prof.tiers[local[i]]) then local[i]
    else SimFrom(params, prof, local, i + 1)
  }

  function SimRoute(params: Params, prof: Profile): string
    requires Runnable(params, prof)
  {
    if SimBigGoal(params, prof) then CLOUD else SimFrom(params, prof, SimLocal(prof), 0)
  }

  /** The simulator as it runs: a scan that stops at the first tier it would trust. */
  method Simulate(params: Params, prof: Profile) returns (route: string)
    requires Runnable(params, prof)
    ensures route == SimRoute(params, prof)
  {
    if SimBigGoal(params, prof) {
      return CLOUD;
    }
    var local := SimLocal(prof);
    for i := 0 to |local|
      invariant SimFrom(params, prof, local, 0) == SimFrom(params, prof, local, i)
    {
      if SimSkips(params, prof, i, local) {
        continue;
      }
      if SimTrusts(params, local[i], prof.tiers[local[i]]) {
        return local[i];
      }
    }
    return CLOUD;
  }

  // ---- Mirroring a policy ----

  /** The settings that replay this policy, its default rules having these parameters. */
  function Mirror(p: Policy, criticMin: real, tokenMax: real, minTokens: nat): Params {
    Params(p.weights, map["local" := Threshold(p, "local"), "mid" := Threshold(p, "mid")],
           Some(criticMin), p.skipSmallAbove, Some(tokenMax), minTokens, false,
           if p.escalateBigGoals then Some(if p.bulkParts < 1 then 1 else p.bulkParts) else None)
  }

  /** What profiling records about one tier's turn. */
  function TierProfileOf(p: Policy, m: Measures, text: string, e: Evidence, correct: Option<bool>): (t: TierProfile)
    requires e.samples != []
    ensures |t.signals| == SIGNALS
  {
    TierProfile(RoundAll(m.round, Values(p, m, text, e.samples, e.critique)), e.samples[0].stats,
                TokenCount(e.samples), Requested(e.samples), Blank(e.samples[0].answer), e.critique, correct)
  }

  /** The profile records exactly these turns, with whatever marks for correctness. */
  predicate Records(prof: Profile, p: Policy, m: Measures, local: seq<string>, text: string, evidence: map<string, Evidence>)
    requires Judged(local, evidence)
  {
    && prof.complexity == m.complexity(text) && prof.parts == m.parts(text)
    && prof.tiers.Keys == Elements(local)
    && forall i :: 0 <= i < |local| && local[i] in prof.tiers ==>
         var t := prof.tiers[local[i]]; t == TierProfileOf(p, m, text, evidence[local[i]], t.correct)
  }

  // ---- Agreement ----

  function Exact(p: Policy, m: Measures, text: string, e: Evidence): real
    requires e.samples != [] && |p.weights| == SIGNALS
  {
    Combine(p.weights, Values(p, m, text, e.samples, e.critique))
  }

  /** The exact score is clear of the threshold by more than half a unit of the fourth decimal. */
  predicate Clear(score: real, threshold: real) {
    score < threshold - HALF_UNIT || score > threshold + HALF_UNIT
  }

  /** What rounding may change, for a total weight. */
  function Slack(total: real): real {
    total * HALF_UNIT
  }

  lemma ShareSplits(v: real, h: real, w: real)
    ensures Share(v + h, w) == w * v + w * h
  {
  }

  lemma RoundedTerm(w: real, v: Option<real>, r: Option<real>)
    requires w >= 0.0 && v.Some? && r.Some? && v.value - HALF_UNIT <= r.value <= v.value + HALF_UNIT
    ensures Term(w, v) - Slack(w) <= Term(w, r) <= Term(w, v) + Slack(w)
  {
    TermBounds(w, r, v.value - HALF_UNIT, v.value + HALF_UNIT);
    ShareSplits(v.value, HALF_UNIT, w);
    ShareSplits(v.value, -HALF_UNIT, w);
  }

  lemma SlackAdds(total: real, w: real)
    ensures Slack(total + w) == Slack(total) + Slack(w)
  {
  }

  lemma {:induction false} RoundedSums(w: seq<real>, v: seq<Option<real>>, r: seq<Option<real>>)
    requires |w| == |v| == |r| && NonNegative(w)
    requires forall i :: 0 <= i < |v| ==> (v[i].None? <==> r[i].None?)
    requires forall i :: 0 <= i < |v| && v[i].Some? ==> v[i].value - HALF_UNIT <= r[i].value <= v[i].value + HALF_UNIT
    ensures WeightSum(w, r) == WeightSum(w, v) >= 0.0
    ensures Weighted(w, v) - Slack(WeightSum(w, v)) <= Weighted(w, r) <= Weighted(w, v) + Slack(WeightSum(w, v))
  {
    if w != [] {
      var n := |w| - 1;
      RoundedSums(w[..n], v[..n], r[..n]);
      if v[n].Some? {
        RoundedTerm(w[n], v[n], r[n]);
        SlackAdds(WeightSum(w[..n], v[..n]), w[n]);
      }
    }
  }

  lemma QuotientsClose(x: real, y: real, total: real)
    requires total > 0.0 && x - Slack(total) <= y <= x + Slack(total)
    ensures x / total - HALF_UNIT <= y / total <= x / total + HALF_UNIT
  {
    var mean := x / total;
    assert mean * total == x;
    assert (mean - HALF_UNIT) * total == x - Slack(total);
    assert (mean + HALF_UNIT) * total == x + Slack(total);
    Quotient(y, total, mean - HALF_UNIT);
    Quotient(y, total, mean + HALF_UNIT);
  }

  /** Rounding every signal moves the mean by no more than rounding the mean itself would. */
  lemma RoundedMeanIsClose(w: seq<real>, v: seq<Option<real>>, round: real -> real)
    requires |w| == |v| && NonNegative(w) && Rounding(round)
    ensures Mean(w, v) - HALF_UNIT <= Mean(w, RoundAll(round, v)) <= Mean(w, v) + HALF_UNIT
  {
    var r := RoundAll(round, v);
    RoundedSums(w, v, r);
    if WeightSum(w, v) > 0.0 {
      QuotientsClose(Weighted(w, v), Weighted(w, r), WeightSum(w, v));
    }
  }

  /** One rounds the score, the other the signals; away from the threshold they compare alike. */
  lemma ScoresCompareAlike(p: Policy, round: real -> real, v: seq<Option<real>>, threshold: real)
    requires ValidPolicy(p) && Rounding(round) && |v| == SIGNALS && Between(v, 0.0, 1.0) && 0.0 <= threshold <= 1.0
    requires Clear(Combine(p.weights, v), threshold)
    ensures round(Combine(p.weights, v)) >= threshold <==> !(SimScore(p.weights, RoundAll(round, v)) < threshold)
  {
    ClampIdle(p.weights, v);
    RoundedMeanIsClose(p.weights, v, round);
    assert Mean(p.weights, v) - HALF_UNIT <= round(Mean(p.weights, v)) <= Mean(p.weights, v) + HALF_UNIT;
  }

  lemma DefaultOpinions(criticMin: real, tokenMax: real, minTokens: nat, round: real -> real, c: Case)
    requires |c.values| == SIGNALS
    ensures FirstOpinion(DefaultRules(criticMin, tokenMax, minTokens), round, c) ==
      if c.requested || c.empty
         || (!c.critique.skipped && !c.critique.passed && c.critique.severity >= criticMin)
         || (c.tier == "local" && c.values[1].Some? && round(c.values[1].value) >= tokenMax && c.tokens >= minTokens)
      then Some(true) else None
  {
    var last := [WhenTokensUncertain(tokenMax, {"local"}, minTokens)];
    NextOpinion(last[0], [], round, c);
    NextOpinion(WhenCriticFails(criticMin), last, round, c);
    NextOpinion(WhenEmpty, [WhenCriticFails(criticMin)] + last, round, c);
    NextOpinion(WhenRequested, [WhenEmpty] + ([WhenCriticFails(criticMin)] + last), round, c);
    assert DefaultRules(criticMin, tokenMax, minTokens)
        == [WhenRequested] + ([WhenEmpty] + ([WhenCriticFails(criticMin)] + last));
    assert last == [last[0]] + [];
  }

  lemma NextOpinion(rule: Rule, rest: seq<Rule>, round: real -> real, c: Case)
    requires |c.values| == SIGNALS
    ensures FirstOpinion([rule] + rest, round, c) ==
      if Opinion(rule, round, c).Some? then Opinion(rule, round, c) else FirstOpinion(rest, round, c)
  {
    assert ([rule] + rest)[1..] == rest;
  }

  lemma TierAgrees(p: Policy, m: Measures, text: string, tier: string, e: Evidence, correct: Option<bool>,
                   criticMin: real, tokenMax: real, minTokens: nat)
    requires ValidPolicy(p) && ValidMeasures(m) && SaneEvidence(e.samples, e.critique) && tier in ["local", "mid"]
    requires p.rules == DefaultRules(criticMin, tokenMax, minTokens) && !BigGoal(p, m.parts(text))
    requires Clear(Exact(p, m, text, e), Threshold(p, tier))
    ensures Trusted(p, m, text, tier, e) <==>
      SimTrusts(Mirror(p, criticMin, tokenMax, minTokens), tier, TierProfileOf(p, m, text, e, correct))
  {
    var c := CaseOf(p, m, tier, text, e.samples, e.critique);
    DefaultOpinions(criticMin, tokenMax, minTokens, m.round, c);
    ValuesInUnit(p, m, text, e.samples, e.critique);
    ScoresCompareAlike(p, m.round, c.values, Threshold(p, tier));
  }

  /** No local tier's exact score is within half a unit of its threshold. */
  predicate AllClear(p: Policy, m: Measures, local: seq<string>, text: string, evidence: map<string, Evidence>)
    requires |p.weights| == SIGNALS && Judged(local, evidence)
  {
    forall i :: 0 <= i < |local| ==> Clear(Exact(p, m, text, evidence[local[i]]), Threshold(p, local[i]))
  }

  /** Both scans treat position i alike. */
  predicate AlikeAt(p: Policy, m: Measures, local: seq<string>, text: string, evidence: map<string, Evidence>,
                    params: Params, prof: Profile, i: nat)
    requires i < |local| && |p.weights| == SIGNALS && Judged(local, evidence) && Runnable(params, prof)
    requires local[i] in prof.tiers && local[i] in ["local", "mid"]
  {
    && (Skips(p, local[i], local, m.complexity(text)) <==> SimSkips(params, prof, i, local))
    && (Trusted(p, m, text, local[i], evidence[local[i]]) <==> SimTrusts(params, local[i], prof.tiers[local[i]]))
  }

  lemma {:induction false} ScansAgree(p: Policy, m: Measures, local: seq<string>, text: string,
      evidence: map<string, Evidence>, params: Params, prof: Profile, i: nat)
    requires |p.weights| == SIGNALS && Judged(local, evidence) && Runnable(params, prof)
    requires forall k :: 0 <= k < |local| ==> local[k] in prof.tiers && local[k] in ["local", "mid"]
    requires forall k :: i <= k < |local| ==> AlikeAt(p, m, local, text, evidence, params, prof, k)
    ensures LiveFrom(p, m, local, text, evidence, i) == SimFrom(params, prof, local, i)
    decreases |local| - i
  {
    if i < |local| {
      assert AlikeAt(p, m, local, text, evidence, params, prof, i);
      ScansAgree(p, m, local, text, evidence, params, prof, i + 1);
    }
  }

  lemma {:induction false} BigGoalGoesToCloud(p: Policy, m: Measures, local: seq<string>, text: string,
      evidence: map<string, Evidence>, i: nat)
    requires |p.weights| == SIGNALS && Judged(local, evidence) && BigGoal(p, m.parts(text))
    ensures LiveFrom(p, m, local, text, evidence, i) == CLOUD
    decreases |local| - i
  {
    if i < |local| {
      BigGoalGoesToCloud(p, m, local, text, evidence, i + 1);
    }
  }

  lemma RecordsAreRunnable(prof: Profile, p: Policy, m: Measures, local: seq<string>, text: string,
      evidence: map<string, Evidence>, params: Params)
    requires Judged(local, evidence) && Records(prof, p, m, local, text, evidence)
    requires |params.weights| == SIGNALS && "local" in params.thresholds && "mid" in params.thresholds
    ensures Runnable(params, prof)
  {
    forall t | t in prof.tiers ensures |prof.tiers[t].signals| == SIGNALS {
      var i :| 0 <= i < |local| && local[i] == t;
    }
  }

  /**
   The simulator refines the router: on a recorded profile, with settings that mirror the policy and its
   default rules, it names the tier the live run would return, unless some tier's exact score lies within
   0.00005 of its threshold.
   */
  lemma SimulatorRefinesRouter(p: Policy, m: Measures, models: set<string>, text: string,
      evidence: map<string, Evidence>, prof: Profile, criticMin: real, tokenMax: real, minTokens: nat)
    requires ValidPolicy(p) && ValidMeasures(m) && CLOUD in models
    requires Judged(Locals(Available(models)), evidence)
    requires Records(prof, p, m, Locals(Available(models)), text, evidence)
    requires p.rules == DefaultRules(criticMin, tokenMax, minTokens)
    requires AllClear(p, m, Locals(Available(models)), text, evidence)
    ensures Runnable(Mirror(p, criticMin, tokenMax, minTokens), prof)
    ensures SimRoute(Mirror(p, criticMin, tokenMax, minTokens), prof) == LiveRoute(p, m, Available(models), text, evidence)
  {
    var local := Locals(Available(models));
    AvailableIsLadder(models);
    RecordsAreRunnable(prof, p, m, local, text, evidence, Mirror(p, criticMin, tokenMax, minTokens));
    SameLocals(models, local, prof);
    RefinesOnLocals(p, m, local, text, evidence, prof, criticMin, tokenMax, minTokens);
  }

  lemma RefinesOnLocals(p: Policy, m: Measures, local: seq<string>, text: string,
      evidence: map<string, Evidence>, prof: Profile, criticMin: real, tokenMax: real, minTokens: nat)
    requires ValidPolicy(p) && ValidMeasures(m) && Judged(local, evidence) && Records(prof, p, m, local, text, evidence)
    requires p.rules == DefaultRules(criticMin, tokenMax, minTokens)
    requires AllClear(p, m, local, text, evidence) && Distinct(local) && local == SimLocal(prof)
    requires Runnable(Mirror(p, criticMin, tokenMax, minTokens), prof)
    ensures SimRoute(Mirror(p, criticMin, tokenMax, minTokens), prof) == LiveFrom(p, m, local, text, evidence, 0)
  {
    if BigGoal(p, m.parts(text)) {
      BigGoalGoesToCloud(p, m, local, text, evidence, 0);
    } else {
      AllAlike(p, m, local, text, evidence, prof, criticMin, tokenMax, minTokens);
      ScansAgree(p, m, local, text, evidence, Mirror(p, criticMin, tokenMax, minTokens), prof, 0);
    }
  }

  lemma AllAlike(p: Policy, m: Measures, local: seq<string>, text: string,
      evidence: map<string, Evidence>, prof: Profile, criticMin: real, tokenMax: real, minTokens: nat)
    requires ValidPolicy(p) && ValidMeasures(m) && Judged(local, evidence) && Records(prof, p, m, local, text, evidence)
    requires p.rules == DefaultRules(criticMin, tokenMax, minTokens) && !BigGoal(p, m.parts(text))
    requires AllClear(p, m, local, text, evidence) && Distinct(local)
    requires forall k :: 0 <= k < |local| ==> local[k] in prof.tiers && local[k] in ["local", "mid"]
    requires Runnable(Mirror(p, criticMin, tokenMax, minTokens), prof)
    ensures forall k :: 0 <= k < |local| ==>
      AlikeAt(p, m, local, text, evidence, Mirror(p, criticMin, tokenMax, minTokens), prof, k)
  {
    var params := Mirror(p, criticMin, tokenMax, minTokens);
    forall k | 0 <= k < |local| ensures AlikeAt(p, m, local, text, evidence, params, prof, k) {
      TierAgrees(p, m, text, local[k], evidence[local[k]], prof.tiers[local[k]].correct, criticMin, tokenMax, minTokens);
    }
  }

  lemma SameLocals(models: set<string>, local: seq<string>, prof: Profile)
    requires local == (if "local" in models then ["local"] else []) + (if "mid" in models then ["mid"] else [])
    requires prof.tiers.Keys == Elements(local)
    ensures SimLocal(prof) == local && Distinct(local)
    ensures forall k :: 0 <= k < |local| ==> local[k] in prof.tiers && local[k] in ["local", "mid"]
  {
    assert "local" in prof.tiers <==> "local" in local;
    assert "mid" in prof.tiers <==> "mid" in local;
  }

  // ---- Where the two differ ----

  /** Rounding to four decimals, halves up. */
  function Round4(x: real): real {
    (x * 10000.0 + 0.5).Floor as real / 10000.0
  }

  lemma Round4IsRounding()
    ensures Rounding(Round4)
  {
    forall x: real, y: real | x <= y ensures Round4(x) <= Round4(y) {
      assert (x * 10000.0 + 0.5).Floor <= (y * 10000.0 + 0.5).Floor;
    }
    forall x: real ensures x - HALF_UNIT <= Round4(x) <= x + HALF_UNIT {
      var scaled := x * 10000.0 + 0.5;
      assert scaled - 1.0 < scaled.Floor as real <= scaled;
    }
  }

  // A request at the edge: one local model, one sample, and weight only on its confidence and the critic's severity.

  const EDGE_TEXT := "Name it"
  const EDGE_POLICY := Policy(0.3, map[], 1, true, Hesitation, false, [1.0, 0.0, 0.0, 1.0, 0.0, 0.0],
                              DefaultRules(0.5, 0.12, 3), true, None, 4, 2, true, 2)
  const EDGE_EVIDENCE := Evidence([Assessment("x", 0.69996, false, None)], Critique(true, 0.29994, false))

  function EdgeMeasures(): Measures {
    Measures((_, _) => 1.0, _ => 0.05, _ => 1, Round4)
  }

  function EdgeProfile(): Profile {
    Profile(0.05, 1, map["local" := TierProfileOf(EDGE_POLICY, EdgeMeasures(), EDGE_TEXT, EDGE_EVIDENCE, None)], {})
  }

  lemma EdgeMean(a: real, b: real)
    ensures Mean([1.0, 0.0, 0.0, 1.0, 0.0, 0.0], [Some(a), None, Some(0.0), Some(b), Some(0.05), Some(0.0)]) == (a + b) / 2.0
  {
    SixSums([1.0, 0.0, 0.0, 1.0, 0.0, 0.0], [Some(a), None, Some(0.0), Some(b), Some(0.05), Some(0.0)]);
  }

  lemma EdgeValues()
    ensures Values(EDGE_POLICY, EdgeMeasures(), EDGE_TEXT, EDGE_EVIDENCE.samples, EDGE_EVIDENCE.critique)
      == [Some(0.30004), None, Some(0.0), Some(0.29994), Some(0.05), Some(0.0)]
    ensures !Requested(EDGE_EVIDENCE.samples)
  {
    var samples := EDGE_EVIDENCE.samples;
    assert samples[..0] == [];
    assert Agreements(EdgeMeasures(), samples) == [] && TokenNumbers(Hesitation, samples) == [];
    assert Confidences(samples) == [0.69996];
    AverageOfOne(0.69996);
  }

  lemma EdgeRounded()
    ensures RoundAll(Round4, [Some(0.30004), None, Some(0.0), Some(0.29994), Some(0.05), Some(0.0)])
      == [Some(0.3), None, Some(0.0), Some(0.2999), Some(0.05), Some(0.0)]
    ensures Round4(0.29999) == 0.3
  {
    assert (0.30004 * 10000.0 + 0.5).Floor == 3000 && (0.29994 * 10000.0 + 0.5).Floor == 2999;
    assert (0.0 * 10000.0 + 0.5).Floor == 0 && (0.05 * 10000.0 + 0.5).Floor == 500;
    assert (0.29999 * 10000.0 + 0.5).Floor == 3000;
  }

  lemma EdgeScores()
    ensures var v := Values(EDGE_POLICY, EdgeMeasures(), EDGE_TEXT, EDGE_EVIDENCE.samples, EDGE_EVIDENCE.critique);
      Round4(Combine(EDGE_POLICY.weights, v)) == 0.3 && SimScore(EDGE_POLICY.weights, RoundAll(Round4, v)) == 0.29995
  {
    EdgeValues();
    EdgeRounded();
    EdgeMean(0.30004, 0.29994);
    EdgeMean(0.3, 0.2999);
  }

  lemma EdgeIsProper(evidence: map<string, Evidence>)
    requires evidence == map["local" := EDGE_EVIDENCE]
    ensures ValidPolicy(EDGE_POLICY) && ValidMeasures(EdgeMeasures())
    ensures Locals(Available({"local", CLOUD})) == ["local"] && Judged(["local"], evidence)
    ensures Records(EdgeProfile(), EDGE_POLICY, EdgeMeasures(), ["local"], EDGE_TEXT, evidence)
    ensures Runnable(Mirror(EDGE_POLICY, 0.5, 0.12, 3), EdgeProfile())
  {
    Round4IsRounding();
    AvailableIsLadder({"local", CLOUD});
    assert Elements(["local"]) == {"local"};
    assert Confidences(EDGE_EVIDENCE.samples)[0] == 0.69996;
  }

  lemma EdgeIsNotTrusted()
    ensures Decide(EDGE_POLICY, EdgeMeasures(), "local", EDGE_TEXT, EDGE_EVIDENCE.samples, EDGE_EVIDENCE.critique)
  {
    EdgeValues();
    EdgeScores();
    var c := CaseOf(EDGE_POLICY, EdgeMeasures(), "local", EDGE_TEXT, EDGE_EVIDENCE.samples, EDGE_EVIDENCE.critique);
    DefaultOpinions(0.5, 0.12, 3, Round4, c);
  }

  lemma EdgeIsSimulatedAsTrusted()
    ensures SimTrusts(Mirror(EDGE_POLICY, 0.5, 0.12, 3), "local", EdgeProfile().tiers["local"])
  {
    EdgeValues();
    EdgeScores();
    EdgeRounded();
    assert EDGE_EVIDENCE.samples[0].answer[0] == 'x' && !Blank(EDGE_EVIDENCE.samples[0].answer);
  }

  /**
   The margin is needed: two signals of equal weight with the exact mean 0.29999. Rounding the mean gives 0.3, which
   reaches the threshold, so the live run goes to the cloud; rounding the signals gives 0.29995, so the simulator,
   on the run's own recording and with the policy's own settings, says "local".
   */
  lemma RoundingCanDisagree(evidence: map<string, Evidence>)
    requires evidence == map["local" := EDGE_EVIDENCE]
    ensures ValidPolicy(EDGE_POLICY) && ValidMeasures(EdgeMeasures()) && EDGE_POLICY.rules == DefaultRules(0.5, 0.12, 3)
    ensures Judged(Locals(Available({"local", CLOUD})), evidence)
    ensures Records(EdgeProfile(), EDGE_POLICY, EdgeMeasures(), Locals(Available({"local", CLOUD})), EDGE_TEXT, evidence)
    ensures Runnable(Mirror(EDGE_POLICY, 0.5, 0.12, 3), EdgeProfile())
    ensures LiveRoute(EDGE_POLICY, EdgeMeasures(), Available({"local", CLOUD}), EDGE_TEXT, evidence) == CLOUD
    ensures SimRoute(Mirror(EDGE_POLICY, 0.5, 0.12, 3), EdgeProfile()) == "local"
  {
    EdgeIsProper(evidence);
    EdgeGoesToCloud(evidence);
    EdgeIsSimulatedAsLocal();
  }

  lemma EdgeGoesToCloud(evidence: map<string, Evidence>)
    requires evidence == map["local" := EDGE_EVIDENCE] && Judged(["local"], evidence)
    ensures LiveFrom(EDGE_POLICY, EdgeMeasures(), ["local"], EDGE_TEXT, evidence, 0) == CLOUD
  {
    EdgeIsNotTrusted();
    assert LiveFrom(EDGE_POLICY, EdgeMeasures(), ["local"], EDGE_TEXT, evidence, 1) == CLOUD;
  }

  lemma EdgeIsSimulatedAsLocal()
    requires Runnable(Mirror(EDGE_POLICY, 0.5, 0.12, 3), EdgeProfile())
    ensures SimRoute(Mirror(EDGE_POLICY, 0.5, 0.12, 3), EdgeProfile()) == "local"
  {
    EdgeIsSimulatedAsTrusted();
    assert SimLocal(EdgeProfile()) == ["local"];
  }

  /**
   With token_signal "mean" the simulator takes the first sample's probability for all of them. Its token signal is
   the live one (before rounding) exactly if no sample has token statistics, or the first has them and its
   probability is the average.
   */
  lemma FirstSampleStandsForAll(p: Policy, m: Measures, text: string, e: Evidence, correct: Option<bool>, params: Params)
    requires e.samples != [] && params.tokenMean && p.tokenSignal.MeanProbability?
    requires InUnit(TokenNumbers(MeanProbability, e.samples))
    ensures SignalsOf(params, TierProfileOf(p, m, text, e, correct))[1] == Values(p, m, text, e.samples, e.critique)[1]
      <==> var numbers := TokenNumbers(MeanProbability, e.samples);
           numbers == [] || (e.samples[0].stats.Some? && e.samples[0].stats.value.prob == Average(numbers))
  {
    if e.samples[0].stats.Some? {
      FirstNumber(e.samples);
    }
    if TokenNumbers(MeanProbability, e.samples) != [] {
      LiveTokenSignal(p, m, text, e);
    }
    var replayed := SignalsOf(params, TierProfileOf(p, m, text, e, correct))[1];
    assert replayed == if e.samples[0].stats.Some? then Some(1.0 - e.samples[0].stats.value.prob) else None;
  }

  lemma LaterNumber(first: Assessment, second: Assessment, numbers: seq<real>)
    requires second.stats.Some?
    requires numbers == (if first.stats.Some? then [first.stats.value.prob] else []) + [second.stats.value.prob]
    ensures TokenNumbers(MeanProbability, [first, second]) == numbers
  {
    var both, one := [first, second], [first];
    assert both[..1] == one && one[..0] == [];
    assert TokenNumbers(MeanProbability, one) == numbers[..|numbers| - 1];
  }

  /** Two kinds of input on which it is not: only the second sample has statistics, or they differ from the first's. */
  lemma FirstSampleCanMislead(p: Policy, m: Measures, text: string, first: Assessment, second: Assessment, critique: Critique,
                              correct: Option<bool>, params: Params)
    requires params.tokenMean && p.tokenSignal.MeanProbability? && second.stats == Some(TokenStats(0.5, 0.5, 5))
    requires first.stats == None || first.stats == Some(TokenStats(0.9, 0.1, 5))
    ensures var e := Evidence([first, second], critique);
      SignalsOf(params, TierProfileOf(p, m, text, e, correct))[1] != Values(p, m, text, e.samples, e.critique)[1]
  {
    var numbers := (if first.stats.Some? then [first.stats.value.prob] else []) + [0.5];
    LaterNumber(first, second, numbers);
    AverageOfTwo(0.9, 0.5);
    assert first.stats.Some? ==> numbers == [0.9, 0.5];
    FirstSampleStandsForAll(p, m, text, Evidence([first, second], critique), correct, params);
  }

  lemma LiveTokenSignal(p: Policy, m: Measures, text: string, e: Evidence)
    requires e.samples != [] && p.tokenSignal.MeanProbability?
    requires TokenNumbers(MeanProbability, e.samples) != [] && InUnit(TokenNumbers(MeanProbability, e.samples))
    ensures Values(p, m, text, e.samples, e.critique)[1] == Some(1.0 - Average(TokenNumbers(MeanProbability, e.samples)))
  {
    AverageInUnit(TokenNumbers(MeanProbability, e.samples));
  }

  lemma {:induction false} FirstNumber(samples: seq<Assessment>)
    requires samples != [] && samples[0].stats.Some?
    ensures TokenNumbers(MeanProbability, samples) != []
  {
    if |samples| > 1 {
      FirstNumber(samples[..|samples| - 1]);
    }
  }

  // ---- Scoring settings on many profiles ----

  datatype Tally = Tally(matched: nat, wrong: nat, cloud: nat, passedOver: nat, wastedCloud: nat)

  predicate Right(prof: Profile, tier: string) {
    tier in prof.tiers && prof.tiers[tier].correct == Some(true)
  }

  function One(b: bool): nat {
    if b then 1 else 0
  }

  /** What one profile routed this way adds. */
  function TallyOne(prof: Profile, route: string): Tally {
    Tally(One(Matches(prof, route)), One(WrongLocally(prof, route)), One(ToCloud(prof, route)),
          One(PassesLocal(prof, route)) + One(PassesMid(prof, route)), One(WastesCloud(prof, route)))
  }

  function Add(a: Tally, b: Tally): Tally {
    Tally(a.matched + b.matched, a.wrong + b.wrong, a.cloud + b.cloud, a.passedOver + b.passedOver,
          a.wastedCloud + b.wastedCloud)
  }

  function TallyAll(profiles: seq<Profile>, routes: seq<string>): Tally
    requires |profiles| == |routes|
  {
    if profiles == [] then Tally(0, 0, 0, 0, 0)
    else
      var n := |profiles| - 1;
      Add(TallyAll(profiles[..n], routes[..n]), TallyOne(profiles[n], routes[n]))
  }

  lemma TallyGrows(profiles: seq<Profile>, routes: seq<string>, i: nat, route: string)
    requires i < |profiles| && |routes| == i
    ensures TallyAll(profiles[..i + 1], routes + [route]) == Add(TallyAll(profiles[..i], routes), TallyOne(profiles[i], route))
  {
    assert profiles[..i + 1][..i] == profiles[..i] && (routes + [route])[..i] == routes;
  }

  /** What the settings are ranked by, before it is rounded to three decimals. */
  function Objective(t: Tally): real {
    t.matched as real - 2.0 * t.wrong as real - t.wastedCloud as real - 0.1 * (t.passedOver + t.cloud) as real
  }

  /** What each profile adds to the ranking, so that the whole is the sum of its parts. */
  lemma ObjectiveAdds(profiles: seq<Profile>, routes: seq<string>)
    requires |profiles| == |routes| > 0
    ensures var n := |profiles| - 1;
      Objective(TallyAll(profiles, routes)) == Objective(TallyAll(profiles[..n], routes[..n])) + Objective(TallyOne(profiles[n], routes[n]))
  {
  }

  /**
   The trade-offs: an expected route is worth 1, a wrong local answer costs 2, paying the cloud for what a local model
   had right costs 1, and every cloud route and every correct answer passed over costs a tenth.
   */
  lemma WorthOfRoutes(prof: Profile, tier: string)
    requires tier == "local" || tier == "mid"
    ensures var worth := route => Objective(TallyOne(prof, route));
      && (tier in prof.tiers && prof.tiers[tier].correct == Some(true) && !Right(prof, "local") ==>
            worth(tier) == if tier in prof.expected then 1.0 else 0.0)
      && (tier in prof.tiers && prof.tiers[tier].correct == Some(false) && !(tier == "mid" && Right(prof, "local")) ==>
            worth(tier) == if tier in prof.expected then -1.0 else -2.0)
      && (Right(prof, "local") && Right(prof, "mid") ==> worth("mid") == if "mid" in prof.expected then 0.9 else -0.1)
      && (!Right(prof, "local") && !Right(prof, "mid") ==> worth("cloud") == if "cloud" in prof.expected then 0.9 else -0.1)
      && (Right(prof, tier) && !(Right(prof, "local") && Right(prof, "mid")) ==>
            worth("cloud") == if "cloud" in prof.expected then -0.2 else -1.2)
      && (Right(prof, "local") && Right(prof, "mid") ==> worth("cloud") == if "cloud" in prof.expected then -0.3 else -1.3)
  {
  }

  /** Each counter is the number of profiles it is about; a profile can pass over one correct answer or two. */
  ghost predicate Counts(t: Tally, profiles: seq<Profile>, routes: seq<string>)
    requires |profiles| == |routes|
  {
    && t.matched == |Cases(profiles, routes, Matches)| && t.wrong == |Cases(profiles, routes, WrongLocally)|
    && t.cloud == |Cases(profiles, routes, ToCloud)| && t.wastedCloud == |Cases(profiles, routes, WastesCloud)|
    && t.passedOver == |Cases(profiles, routes, PassesLocal)| + |Cases(profiles, routes, PassesMid)|
  }

  /** Scores one setting on all profiles; `round` is the rounding of the objective. */
  method Evaluate(params: Params, profiles: seq<Profile>, round: real -> real)
    returns (tally: Tally, objective: real, routes: seq<string>)
    requires forall i :: 0 <= i < |profiles| ==> Runnable(params, profiles[i])
    ensures |routes| == |profiles| && forall i :: 0 <= i < |profiles| ==> routes[i] == SimRoute(params, profiles[i])
    ensures Counts(tally, profiles, routes) && objective == round(Objective(tally))
  {
    tally, routes := Tally(0, 0, 0, 0, 0), [];
    for i := 0 to |profiles|
      invariant |routes| == i && forall k :: 0 <= k < i ==> routes[k] == SimRoute(params, profiles[k])
      invariant tally == TallyAll(profiles[..i], routes)
    {
      var route := Simulate(params, profiles[i]);
      TallyGrows(profiles, routes, i, route);
      routes := routes + [route];
      tally := Add(tally, TallyOne(profiles[i], route));
    }
    assert profiles[..|profiles|] == profiles;
    TallyCounts(profiles, routes);
    objective := round(Objective(tally));
  }

  predicate Matches(prof: Profile, route: string) {
    route in prof.expected
  }

  predicate ToCloud(prof: Profile, route: string) {
    route == CLOUD
  }

  predicate WrongLocally(prof: Profile, route: string) {
    route != CLOUD && route in prof.tiers && prof.tiers[route].correct == Some(false)
  }

  predicate PassesLocal(prof: Profile, route: string) {
    route != "local" && Right(prof, "local")
  }

  predicate PassesMid(prof: Profile, route: string) {
    route == CLOUD && Right(prof, "mid")
  }

  predicate WastesCloud(prof: Profile, route: string) {
    route == CLOUD && (Right(prof, "local") || Right(prof, "mid"))
  }

  /** The positions of the profiles that pass this test on their routes. */
  function Cases(profiles: seq<Profile>, routes: seq<string>, test: (Profile, string) -> bool): set<int>
    requires |profiles| == |routes|
  {
    set i | 0 <= i < |profiles| && test(profiles[i], routes[i])
  }

  lemma CasesNext(profiles: seq<Profile>, routes: seq<string>, test: (Profile, string) -> bool)
    requires |profiles| == |routes| > 0
    ensures var n := |profiles| - 1;
      |Cases(profiles, routes, test)| == |Cases(profiles[..n], routes[..n], test)| + One(test(profiles[n], routes[n]))
  {
    var n := |profiles| - 1;
    var before, after := Cases(profiles[..n], routes[..n], test), Cases(profiles, routes, test);
    assert n !in before && after == if test(profiles[n], routes[n]) then before + {n} else before;
  }

  lemma {:induction false} TallyCounts(profiles: seq<Profile>, routes: seq<string>)
    requires |profiles| == |routes|
    ensures Counts(TallyAll(profiles, routes), profiles, routes)
  {
    if profiles != [] {
      TallyCounts(profiles[..|profiles| - 1], routes[..|profiles| - 1]);
      CasesNext(profiles, routes, Matches);
      CasesNext(profiles, routes, WrongLocally);
      CasesNext(profiles, routes, ToCloud);
      CasesNext(profiles, routes, WastesCloud);
      CasesNext(profiles, routes, PassesLocal);
      CasesNext(profiles, routes, PassesMid);
    }
  }

  /** Every case is answered by the cloud or locally; waste and wrong answers are disjoint parts of those. */
  lemma {:induction false} TallyAddsUp(profiles: seq<Profile>, routes: seq<string>)
    requires |profiles| == |routes|
    ensures var t := TallyAll(profiles, routes);
      && t.wrong + t.cloud <= |profiles| && t.wastedCloud <= t.cloud && t.matched <= |profiles|
      && t.wastedCloud <= t.passedOver <= 2 * |profiles|
  {
    if profiles != [] {
      TallyAddsUp(profiles[..|profiles| - 1], routes[..|profiles| - 1]);
    }
  }
}
