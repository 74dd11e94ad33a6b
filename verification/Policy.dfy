/** Routing rules: when a local answer is trusted. Scores are exact reals; rounding is a parameter. */
module Policies {
  import opened Json

  // ---- Weighted means ----

  /** The weights of the signals that are available. */
  function WeightSum(w: seq<real>, v: seq<Option<real>>): real
    requires |w| == |v|
  {
    if w == [] then 0.0
    else var n := |w| - 1; WeightSum(w[..n], v[..n]) + if v[n].Some? then w[n] else 0.0
  }

  function Weighted(w: seq<real>, v: seq<Option<real>>): real
    requires |w| == |v|
  {
    if w == [] then 0.0
    else var n := |w| - 1; Weighted(w[..n], v[..n]) + Term(w[n], v[n])
  }

  function Term(w: real, v: Option<real>): real {
    if v.Some? then w * v.value else 0.0
  }

  function Clamp(x: real): real {
    if x < 0.0 then 0.0 else if x > 1.0 then 1.0 else x
  }

  /** The weighted mean of the available signals. */
  function Mean(w: seq<real>, v: seq<Option<real>>): real
    requires |w| == |v|
  {
    if WeightSum(w, v) == 0.0 then 0.0 else Weighted(w, v) / WeightSum(w, v)
  }

  function Combine(w: seq<real>, v: seq<Option<real>>): real
    requires |w| == |v|
  {
    Clamp(Mean(w, v))
  }

  predicate NonNegative(w: seq<real>) {
    forall i :: 0 <= i < |w| ==> w[i] >= 0.0
  }

  /** Every available signal lies between these bounds. */
  predicate Between(v: seq<Option<real>>, lo: real, hi: real) {
    forall i :: 0 <= i < |v| && v[i].Some? ==> lo <= v[i].value <= hi
  }

  lemma Scale(w: real, a: real, b: real)
    requires w >= 0.0 && a <= b
    ensures w * a <= w * b
  {
  }

  lemma Quotient(x: real, total: real, bound: real)
    requires total > 0.0
    ensures x <= Share(bound, total) ==> x / total <= bound
    ensures x >= Share(bound, total) ==> x / total >= bound
  {
    var q := x / total;
    assert x == total * q;
    Sign(total, q - bound);
    Sign(total, bound - q);
    assert total * (q - bound) == x - Share(bound, total);
    assert total * (bound - q) == Share(bound, total) - x;
  }

  /** What a total weight would contribute if every signal had this value. */
  function Share(bound: real, total: real): real {
    bound * total
  }

  lemma {:induction false} WeightedBounds(w: seq<real>, v: seq<Option<real>>, lo: real, hi: real)
    requires |w| == |v| && NonNegative(w) && Between(v, lo, hi)
    ensures WeightSum(w, v) >= 0.0
    ensures Share(lo, WeightSum(w, v)) <= Weighted(w, v) <= Share(hi, WeightSum(w, v))
  {
    if w != [] {
      var n := |w| - 1;
      WeightedBounds(w[..n], v[..n], lo, hi);
      if v[n].Some? {
        TermBounds(w[n], v[n], lo, hi);
        ShareAdds(lo, WeightSum(w[..n], v[..n]), w[n]);
        ShareAdds(hi, WeightSum(w[..n], v[..n]), w[n]);
      }
    }
  }

  lemma TermBounds(w: real, v: Option<real>, lo: real, hi: real)
    requires w >= 0.0 && v.Some? && lo <= v.value <= hi
    ensures Share(lo, w) <= Term(w, v) <= Share(hi, w)
  {
    Scale(w, lo, v.value);
    Scale(w, v.value, hi);
  }

  lemma ShareAdds(bound: real, total: real, w: real)
    ensures Share(bound, total + w) == Share(bound, total) + Share(bound, w)
  {
  }

  /** The score lies between the smallest and the largest available signal. */
  lemma ScoreBetween(w: seq<real>, v: seq<Option<real>>, lo: real, hi: real)
    requires |w| == |v| && NonNegative(w) && Between(v, lo, hi) && 0.0 <= lo <= hi <= 1.0 && WeightSum(w, v) != 0.0
    ensures lo <= Combine(w, v) <= hi && Combine(w, v) == Mean(w, v)
  {
    MeanBetween(w, v, lo, hi);
  }

  lemma MeanBetween(w: seq<real>, v: seq<Option<real>>, lo: real, hi: real)
    requires |w| == |v| && NonNegative(w) && Between(v, lo, hi) && WeightSum(w, v) != 0.0
    ensures lo <= Mean(w, v) <= hi
  {
    MeanAbove(w, v, lo, hi);
    MeanBelow(w, v, lo, hi);
  }

  lemma MeanAbove(w: seq<real>, v: seq<Option<real>>, lo: real, hi: real)
    requires |w| == |v| && NonNegative(w) && Between(v, lo, hi) && WeightSum(w, v) != 0.0
    ensures lo <= Mean(w, v)
  {
    WeightedBounds(w, v, lo, hi);
    Quotient(Weighted(w, v), WeightSum(w, v), lo);
  }

  lemma MeanBelow(w: seq<real>, v: seq<Option<real>>, lo: real, hi: real)
    requires |w| == |v| && NonNegative(w) && Between(v, lo, hi) && WeightSum(w, v) != 0.0
    ensures Mean(w, v) <= hi
  {
    WeightedBounds(w, v, lo, hi);
    Quotient(Weighted(w, v), WeightSum(w, v), hi);
  }

  /** On signals in [0, 1] clamping never changes the mean. */
  lemma ClampIdle(w: seq<real>, v: seq<Option<real>>)
    requires |w| == |v| && NonNegative(w) && Between(v, 0.0, 1.0)
    ensures Combine(w, v) == Mean(w, v) && 0.0 <= Mean(w, v) <= 1.0
  {
    if WeightSum(w, v) != 0.0 {
      ScoreBetween(w, v, 0.0, 1.0);
    }
  }

  lemma {:induction false} MissingSums(w: seq<real>, v: seq<Option<real>>, i: nat, x: real)
    requires |w| == |v| && i < |w|
    ensures WeightSum(w, v[i := None]) == WeightSum(w[i := 0.0], v[i := Some(x)])
    ensures Weighted(w, v[i := None]) == Weighted(w[i := 0.0], v[i := Some(x)])
  {
    var n := |w| - 1;
    if i == n {
      assert v[i := None][..n] == v[..n] == v[i := Some(x)][..n];
      assert w[i := 0.0][..n] == w[..n];
    } else {
      MissingSums(w[..n], v[..n], i, x);
      assert v[i := None][..n] == v[..n][i := None];
      assert v[i := Some(x)][..n] == v[..n][i := Some(x)];
      assert w[i := 0.0][..n] == w[..n][i := 0.0];
    }
  }

  /** Leaving a signal out is the same as giving it no weight. */
  lemma MissingIsWeightless(w: seq<real>, v: seq<Option<real>>, i: nat, x: real)
    requires |w| == |v| && i < |w|
    ensures Combine(w, v[i := None]) == Combine(w[i := 0.0], v[i := Some(x)])
  {
    MissingSums(w, v, i, x);
  }

  lemma {:induction false} AddedSums(w: seq<real>, v: seq<Option<real>>, i: nat, x: real, product: real)
    requires |w| == |v| && i < |w| && v[i].None? && product == w[i] * x
    ensures WeightSum(w, v[i := Some(x)]) == WeightSum(w, v) + w[i]
    ensures Weighted(w, v[i := Some(x)]) == Weighted(w, v) + product
  {
    var n := |w| - 1;
    if i == n {
      assert v[i := Some(x)][..n] == v[..n];
    } else {
      assert w[..n][i] == w[i];
      AddedSums(w[..n], v[..n], i, x, product);
      assert v[i := Some(x)][..n] == v[..n][i := Some(x)];
    }
  }

  /** A signal that becomes available pulls the score towards itself: it lowers the score exactly if it is below it. */
  lemma AddedSignalPulls(w: seq<real>, v: seq<Option<real>>, i: nat, x: real)
    requires |w| == |v| && NonNegative(w) && Between(v, 0.0, 1.0) && 0.0 <= x <= 1.0
    requires i < |w| && v[i].None? && w[i] > 0.0 && WeightSum(w, v) > 0.0
    ensures Combine(w, v[i := Some(x)]) < Combine(w, v) <==> x < Combine(w, v)
  {
    var product := w[i] * x;
    AddedSums(w, v, i, x, product);
    ClampIdle(w, v);
    ClampIdle(w, v[i := Some(x)]);
    MeanPulled(Weighted(w, v), WeightSum(w, v), w[i], x, product);
  }

  /** Adding an entry of weight u and value x to a mean. */
  lemma MeanPulled(sum: real, total: real, u: real, x: real, product: real)
    requires total > 0.0 && u > 0.0 && product == u * x
    ensures (sum + product) / (total + u) < sum / total <==> x < sum / total
  {
    var before, after := sum / total, (sum + product) / (total + u);
    assert sum == before * total;
    assert sum + u * x == after * (total + u);
    assert (total + u) * (after - before) == u * (x - before) by {
      assert (total + u) * (after - before) == after * (total + u) - before * total - before * u;
    }
    SameSign(after - before, total + u, u, x - before);
  }

  lemma Sign(q: real, b: real)
    requires q > 0.0
    ensures q * b < 0.0 <==> b < 0.0
  {
    if b < 0.0 {
      assert q * b < q * 0.0;
    } else {
      Scale(q, 0.0, b);
    }
  }

  lemma SameSign(a: real, p: real, q: real, b: real)
    requires p > 0.0 && q > 0.0 && p * a == q * b
    ensures a < 0.0 <==> b < 0.0
  {
    Sign(p, a);
    Sign(q, b);
  }

  // ---- Evidence and rules ----

  datatype TokenStats = TokenStats(prob: real, hesitation: real, count: nat)

  datatype Assessment = Assessment(answer: string, confidence: real, needsEscalation: bool, stats: Option<TokenStats>)

  datatype Critique = Critique(passed: bool, severity: real, skipped: bool)

  /** The text measures the policy treats as given, and the rounding to four decimals. */
  datatype Measures = Measures(
    agreement: (string, string) -> real,
    complexity: string -> real,
    parts: string -> nat,
    round: real -> real
  )

  const HALF_UNIT := 0.00005

  ghost predicate Rounding(round: real -> real) {
    && (forall x, y :: x <= y ==> round(x) <= round(y))
    && (forall x :: x - HALF_UNIT <= round(x) <= x + HALF_UNIT)
  }

  ghost predicate ValidMeasures(m: Measures) {
    && (forall a, b :: 0.0 <= m.agreement(a, b) <= 1.0)
    && (forall text :: 0.0 <= m.complexity(text) <= 1.0)
    && (forall text :: m.parts(text) >= 1)
    && Rounding(m.round)
  }

  datatype Rule =
    | WhenRequested
    | WhenEmpty
    | WhenCriticFails(minSeverity: real)
    | WhenTokensUncertain(limit: real, tiers: set<string>, minTokens: nat)

  datatype TokenSignal = MeanProbability | Hesitation

  datatype Policy = Policy(
    threshold: real,
    tierThresholds: map<string, real>,
    samples: nat,
    useCritic: bool,
    tokenSignal: TokenSignal,
    escalateBigGoals: bool,
    weights: seq<real>,
    rules: seq<Rule>,
    crossCritic: bool,
    skipSmallAbove: Option<real>,
    bulkParts: int,
    workerAttempts: nat,
    escalateFailed: bool,
    planAttempts: nat
  )

  const SIGNALS := 6  // self uncertainty, token uncertainty, inconsistency, critic risk, complexity, explicit request

  /** What the policy's own check lets through, with weights that are not negative. */
  predicate ValidPolicy(p: Policy) {
    && 0.0 <= p.threshold <= 1.0 && (forall t :: t in p.tierThresholds ==> 0.0 <= p.tierThresholds[t] <= 1.0)
    && p.samples >= 1 && p.workerAttempts >= 1 && p.planAttempts >= 1
    && |p.weights| == SIGNALS && NonNegative(p.weights)
  }

  /** The shape of the default rules, with their parameters. */
  function DefaultRules(criticMin: real, tokenMax: real, minTokens: nat): seq<Rule> {
    [WhenRequested, WhenEmpty, WhenCriticFails(criticMin), WhenTokensUncertain(tokenMax, {"local"}, minTokens)]
  }

  function Threshold(p: Policy, tier: string): real {
    if tier in p.tierThresholds then p.tierThresholds[tier] else p.threshold
  }

  // ---- Signals ----

  function Sum(xs: seq<real>): real {
    if xs == [] then 0.0 else Sum(xs[..|xs| - 1]) + xs[|xs| - 1]
  }

  function Average(xs: seq<real>): real
    requires xs != []
  {
    Sum(xs) / (|xs| as real)
  }

  predicate InUnit(xs: seq<real>) {
    forall i :: 0 <= i < |xs| ==> 0.0 <= xs[i] <= 1.0
  }

  lemma {:induction false} SumInUnit(xs: seq<real>)
    requires InUnit(xs)
    ensures 0.0 <= Sum(xs) <= |xs| as real
  {
    if xs != [] {
      SumInUnit(xs[..|xs| - 1]);
    }
  }

  lemma AverageInUnit(xs: seq<real>)
    requires InUnit(xs) && xs != []
    ensures 0.0 <= Average(xs) <= 1.0
  {
    SumInUnit(xs);
    Quotient(Sum(xs), |xs| as real, 0.0);
    Quotient(Sum(xs), |xs| as real, 1.0);
  }

  function Confidences(samples: seq<Assessment>): seq<real> {
    seq(|samples|, i requires 0 <= i < |samples| => samples[i].confidence)
  }

  /** The agreement of every pair of samples. */
  function Agreements(m: Measures, samples: seq<Assessment>): seq<real> {
    if samples == [] then []
    else
      var n := |samples| - 1;
      Agreements(m, samples[..n]) + seq(n, i requires 0 <= i < n => m.agreement(samples[i].answer, samples[n].answer))
  }

  lemma {:induction false} AgreementsInUnit(m: Measures, samples: seq<Assessment>)
    requires forall a, b :: 0.0 <= m.agreement(a, b) <= 1.0
    ensures InUnit(Agreements(m, samples))
  {
    if samples != [] {
      AgreementsInUnit(m, samples[..|samples| - 1]);
    }
  }

  /** The statistic of each sample that has one. */
  function TokenNumbers(signal: TokenSignal, samples: seq<Assessment>): seq<real> {
    if samples == [] then []
    else
      var n := |samples| - 1;
      TokenNumbers(signal, samples[..n]) +
      match samples[n].stats
      case None => []
      case Some(stats) => [if signal.Hesitation? then stats.hesitation else stats.prob]
  }

  function TokenUncertainty(signal: TokenSignal, samples: seq<Assessment>): Option<real> {
    var numbers := TokenNumbers(signal, samples);
    if numbers == [] then None
    else if signal.Hesitation? then Some(Clamp(Average(numbers)))
    else Some(Clamp(1.0 - Average(numbers)))
  }

  predicate Requested(samples: seq<Assessment>) {
    exists i :: 0 <= i < |samples| && samples[i].needsEscalation
  }

  function TokenCount(samples: seq<Assessment>): nat {
    if samples == [] then 0
    else
      var n := |samples| - 1;
      var rest := TokenCount(samples[..n]);
      var count := if samples[n].stats.Some? then samples[n].stats.value.count else 0;
      if rest < count then count else rest
  }

  /** The six signals before rounding; None when a signal is not available. */
  function Values(p: Policy, m: Measures, text: string, samples: seq<Assessment>, critique: Critique): seq<Option<real>>
    requires samples != []
  {
    SixSignals(Confidences(samples), TokenUncertainty(p.tokenSignal, samples), Agreements(m, samples), critique.severity,
               m.complexity(text), Requested(samples))
  }

  function SixSignals(confidences: seq<real>, token: Option<real>, agreements: seq<real>, severity: real, complexity: real,
                      requested: bool): seq<Option<real>>
    requires confidences != []
  {
    [Some(1.0 - Average(confidences)),
     token,
     Some(if agreements == [] then 0.0 else 1.0 - Average(agreements)),
     Some(severity),
     Some(complexity),
     Some(if requested then 1.0 else 0.0)]
  }

  /** What a local model's turn produced: some samples and a critique, with everything in range. */
  predicate SaneEvidence(samples: seq<Assessment>, critique: Critique) {
    && samples != [] && InUnit(Confidences(samples)) && 0.0 <= critique.severity <= 1.0
  }

  lemma ValuesInUnit(p: Policy, m: Measures, text: string, samples: seq<Assessment>, critique: Critique)
    requires ValidMeasures(m) && SaneEvidence(samples, critique)
    ensures Between(Values(p, m, text, samples, critique), 0.0, 1.0)
  {
    AverageInUnit(Confidences(samples));
    AgreementsInUnit(m, samples);
    if Agreements(m, samples) != [] {
      AverageInUnit(Agreements(m, samples));
    }
  }

  function RoundAll(round: real -> real, v: seq<Option<real>>): (r: seq<Option<real>>)
    ensures |r| == |v|
    ensures forall i :: 0 <= i < |v| ==> r[i] == if v[i].None? then None else Some(round(v[i].value))
  {
    seq(|v|, i requires 0 <= i < |v| => if v[i].None? then None else Some(round(v[i].value)))
  }

  // ---- Deciding ----

  /** Everything a rule or the score comparison may look at. */
  datatype Case = Case(
    tier: string,
    values: seq<Option<real>>,   // before rounding
    requested: bool,
    empty: bool,
    critique: Critique,
    tokens: nat
  )

  function Opinion(rule: Rule, round: real -> real, c: Case): Option<bool>
    requires |c.values| == SIGNALS
  {
    match rule
    case WhenRequested => if c.requested then Some(true) else None
    case WhenEmpty => if c.empty then Some(true) else None
    case WhenCriticFails(least) =>
      if !c.critique.skipped && !c.critique.passed && c.critique.severity >= least then Some(true) else None
    case WhenTokensUncertain(limit, tiers, least) =>
      if c.tier in tiers && c.values[1].Some? && round(c.values[1].value) >= limit && c.tokens >= least
      then Some(true) else None
  }

  /** The first rule with an opinion decides. */
  function FirstOpinion(rules: seq<Rule>, round: real -> real, c: Case): Option<bool>
    requires |c.values| == SIGNALS
  {
    if rules == [] then None
    else if Opinion(rules[0], round, c).Some? then Opinion(rules[0], round, c)
    else FirstOpinion(rules[1..], round, c)
  }

  predicate BigGoal(p: Policy, parts: nat) {
    p.escalateBigGoals && parts >= p.bulkParts
  }

  predicate Escalates(p: Policy, round: real -> real, parts: nat, c: Case)
    requires |c.values| == SIGNALS == |p.weights|
  {
    if BigGoal(p, parts) then true
    else
      match FirstOpinion(p.rules, round, c)
      case Some(forced) => forced
      case None => round(Combine(p.weights, c.values)) >= Threshold(p, c.tier)
  }

  function CaseOf(p: Policy, m: Measures, tier: string, text: string, samples: seq<Assessment>, critique: Critique): (c: Case)
    requires samples != []
    ensures |c.values| == SIGNALS
  {
    Case(tier, Values(p, m, text, samples, critique), Requested(samples), Blank(samples[0].answer), critique,
         TokenCount(samples))
  }

  predicate Decide(p: Policy, m: Measures, tier: string, text: string, samples: seq<Assessment>, critique: Critique)
    requires samples != [] && |p.weights| == SIGNALS
  {
    Escalates(p, m.round, m.parts(text), CaseOf(p, m, tier, text, samples, critique))
  }

  // ---- More evidence against an answer never makes it trusted ----

  /** The same signals are available, none of them lower. */
  predicate NoLower(v: seq<Option<real>>, v': seq<Option<real>>) {
    |v| == |v'| && forall i :: 0 <= i < |v| ==>
      (v[i].None? <==> v'[i].None?) && (v[i].Some? && v'[i].Some? ==> v[i].value <= v'[i].value)
  }

  lemma {:induction false} MoreWeighted(w: seq<real>, v: seq<Option<real>>, v': seq<Option<real>>)
    requires |w| == |v| && NonNegative(w) && NoLower(v, v')
    ensures WeightSum(w, v) == WeightSum(w, v') && Weighted(w, v) <= Weighted(w, v')
  {
    if w != [] {
      var n := |w| - 1;
      MoreWeighted(w[..n], v[..n], v'[..n]);
      if v[n].Some? {
        TermGrows(w[n], v[n], v'[n]);
      }
    }
  }

  lemma TermGrows(w: real, v: Option<real>, v': Option<real>)
    requires w >= 0.0 && v.Some? && v'.Some? && v.value <= v'.value
    ensures Term(w, v) <= Term(w, v')
  {
    Scale(w, v.value, v'.value);
  }

  lemma {:induction false} TotalNonNegative(w: seq<real>, v: seq<Option<real>>)
    requires |w| == |v| && NonNegative(w)
    ensures WeightSum(w, v) >= 0.0
  {
    if w != [] {
      TotalNonNegative(w[..|w| - 1], v[..|w| - 1]);
    }
  }

  lemma ScoreMonotone(w: seq<real>, v: seq<Option<real>>, v': seq<Option<real>>)
    requires |w| == |v| && NonNegative(w) && NoLower(v, v')
    ensures Combine(w, v) <= Combine(w, v')
  {
    MoreWeighted(w, v, v');
    TotalNonNegative(w, v);
    var total := WeightSum(w, v);
    if total > 0.0 {
      var mean := Weighted(w, v') / total;
      assert mean * total == Weighted(w, v');
      Quotient(Weighted(w, v), total, mean);
    }
  }

  /** At least as much speaks against the answer. */
  predicate NoBetter(c: Case, c': Case) {
    && c.tier == c'.tier && NoLower(c.values, c'.values) && c.tokens <= c'.tokens
    && (c.requested ==> c'.requested) && (c.empty ==> c'.empty)
    && c.critique.severity <= c'.critique.severity
    && (c'.critique.passed ==> c.critique.passed) && (c'.critique.skipped ==> c.critique.skipped)
  }

  lemma OpinionMonotone(rule: Rule, round: real -> real, c: Case, c': Case)
    requires Rounding(round) && |c.values| == SIGNALS && NoBetter(c, c') && Opinion(rule, round, c).Some?
    ensures Opinion(rule, round, c') == Some(true)
  {
  }

  lemma {:induction false} OpinionsOnlyEscalate(rules: seq<Rule>, round: real -> real, c: Case)
    requires |c.values| == SIGNALS
    ensures FirstOpinion(rules, round, c) == Some(true) <==>
      exists i :: 0 <= i < |rules| && Opinion(rules[i], round, c).Some?
    ensures FirstOpinion(rules, round, c).Some? ==> FirstOpinion(rules, round, c) == Some(true)
  {
    if rules != [] {
      OpinionsOnlyEscalate(rules[1..], round, c);
      assert forall i :: 0 < i < |rules| ==> rules[i] == rules[1..][i - 1];
      if Opinion(rules[0], round, c).None? && FirstOpinion(rules[1..], round, c) == Some(true) {
        var i :| 0 <= i < |rules[1..]| && Opinion(rules[1..][i], round, c).Some?;
        assert Opinion(rules[i + 1], round, c).Some?;
      }
    }
  }

  /**
   Raising any signal, the critic's severity or the request for help never turns "escalate" into
   "trust", whatever combination of the built-in rules is in force.
   */
  lemma EscalationMonotone(p: Policy, round: real -> real, parts: nat, c: Case, c': Case)
    requires ValidPolicy(p) && Rounding(round) && |c.values| == SIGNALS && NoBetter(c, c')
    requires Escalates(p, round, parts, c)
    ensures Escalates(p, round, parts, c')
  {
    OpinionsOnlyEscalate(p.rules, round, c);
    OpinionsOnlyEscalate(p.rules, round, c');
    if i :| 0 <= i < |p.rules| && Opinion(p.rules[i], round, c).Some? {
      OpinionMonotone(p.rules[i], round, c, c');
    } else {
      ScoreMonotone(p.weights, c.values, c'.values);
    }
  }

  // ---- The same, on what the models actually said ----

  /** No number of the first list is above its counterpart. */
  predicate Below(xs: seq<real>, ys: seq<real>) {
    |xs| == |ys| && forall i :: 0 <= i < |xs| ==> xs[i] <= ys[i]
  }

  lemma {:induction false} SumBelow(xs: seq<real>, ys: seq<real>)
    requires Below(xs, ys)
    ensures Sum(xs) <= Sum(ys)
  {
    if xs != [] {
      SumBelow(xs[..|xs| - 1], ys[..|ys| - 1]);
    }
  }

  lemma AverageBelow(xs: seq<real>, ys: seq<real>)
    requires Below(xs, ys) && xs != []
    ensures Average(xs) <= Average(ys)
  {
    SumBelow(xs, ys);
    var total := |xs| as real;
    assert Average(ys) * total == Sum(ys);
    Quotient(Sum(xs), total, Average(ys));
  }

  /** The second answer's token statistics are no better: both there or both missing, and no surer. */
  predicate NoSurer(a: Option<TokenStats>, b: Option<TokenStats>) {
    match (a, b)
    case (None, None) => true
    case (Some(x), Some(y)) => y.prob <= x.prob && x.hesitation <= y.hesitation && x.count <= y.count
    case (_, _) => false
  }

  predicate SampleNoBetter(a: Assessment, b: Assessment) {
    b.confidence <= a.confidence && (a.needsEscalation ==> b.needsEscalation) && NoSurer(a.stats, b.stats)
  }

  /** Sample by sample no better, no pair of answers in better agreement, and a blank first answer still blank. */
  predicate SamplesNoBetter(m: Measures, a: seq<Assessment>, b: seq<Assessment>) {
    && |a| == |b| && (a != [] && Blank(a[0].answer) ==> Blank(b[0].answer))
    && (forall i :: 0 <= i < |a| ==> SampleNoBetter(a[i], b[i]))
    && (forall i, j :: 0 <= i < j < |a| ==>
          m.agreement(b[i].answer, b[j].answer) <= m.agreement(a[i].answer, a[j].answer))
  }

  predicate CritiqueNoBetter(a: Critique, b: Critique) {
    a.severity <= b.severity && (b.passed ==> a.passed) && (b.skipped ==> a.skipped)
  }

  lemma {:induction false} AgreementsBelow(m: Measures, a: seq<Assessment>, b: seq<Assessment>)
    requires |a| == |b|
    requires forall i, j :: 0 <= i < j < |a| ==> m.agreement(b[i].answer, b[j].answer) <= m.agreement(a[i].answer, a[j].answer)
    ensures Below(Agreements(m, b), Agreements(m, a))
  {
    if a != [] {
      AgreementsBelow(m, a[..|a| - 1], b[..|b| - 1]);
    }
  }

  lemma {:induction false} TokensBelow(a: seq<Assessment>, b: seq<Assessment>)
    requires |a| == |b| && forall i :: 0 <= i < |a| ==> NoSurer(a[i].stats, b[i].stats)
    ensures Below(TokenNumbers(MeanProbability, b), TokenNumbers(MeanProbability, a))
    ensures Below(TokenNumbers(Hesitation, a), TokenNumbers(Hesitation, b))
    ensures TokenCount(a) <= TokenCount(b)
  {
    if a != [] {
      var n := |a| - 1;
      TokensBelow(a[..n], b[..n]);
      assert NoSurer(a[n].stats, b[n].stats);
    }
  }

  lemma ClampMonotone(x: real, y: real)
    requires x <= y
    ensures Clamp(x) <= Clamp(y)
  {
  }

  lemma TokenUncertaintyGrows(signal: TokenSignal, a: seq<Assessment>, b: seq<Assessment>)
    requires |a| == |b| && forall i :: 0 <= i < |a| ==> NoSurer(a[i].stats, b[i].stats)
    ensures TokenUncertainty(signal, a).None? <==> TokenUncertainty(signal, b).None?
    ensures TokenUncertainty(signal, a).Some? ==> TokenUncertainty(signal, a).value <= TokenUncertainty(signal, b).value
  {
    TokensBelow(a, b);
    var x, y := TokenNumbers(signal, a), TokenNumbers(signal, b);
    if x != [] {
      if signal.Hesitation? {
        AverageBelow(x, y);
        ClampMonotone(Average(x), Average(y));
      } else {
        AverageBelow(y, x);
        ClampMonotone(1.0 - Average(x), 1.0 - Average(y));
      }
    }
  }

  lemma ConfidenceBelow(a: seq<Assessment>, b: seq<Assessment>)
    requires |a| == |b| != 0 && forall i :: 0 <= i < |a| ==> SampleNoBetter(a[i], b[i])
    ensures Average(Confidences(b)) <= Average(Confidences(a))
    ensures Requested(a) ==> Requested(b)
  {
    AverageBelow(Confidences(b), Confidences(a));
  }

  lemma ValuesNoLower(p: Policy, m: Measures, text: string, a: seq<Assessment>, b: seq<Assessment>, k: Critique, k': Critique)
    requires a != [] && SamplesNoBetter(m, a, b) && CritiqueNoBetter(k, k')
    ensures NoLower(Values(p, m, text, a, k), Values(p, m, text, b, k'))
  {
    ConfidenceBelow(a, b);
    TokenUncertaintyGrows(p.tokenSignal, a, b);
    AgreementFalls(m, a, b);
    SixNoLower(Values(p, m, text, a, k), Values(p, m, text, b, k'));
  }

  lemma SixNoLower(v: seq<Option<real>>, v': seq<Option<real>>)
    requires |v| == |v'| == SIGNALS && SignalNoLower(v[0], v'[0]) && SignalNoLower(v[1], v'[1]) && SignalNoLower(v[2], v'[2])
    requires SignalNoLower(v[3], v'[3]) && SignalNoLower(v[4], v'[4]) && SignalNoLower(v[5], v'[5])
    ensures NoLower(v, v')
  {
  }

  predicate SignalNoLower(a: Option<real>, b: Option<real>) {
    (a.None? <==> b.None?) && (a.Some? && b.Some? ==> a.value <= b.value)
  }

  lemma AgreementFalls(m: Measures, a: seq<Assessment>, b: seq<Assessment>)
    requires SamplesNoBetter(m, a, b)
    ensures |Agreements(m, a)| == |Agreements(m, b)|
    ensures Agreements(m, a) != [] ==> Average(Agreements(m, b)) <= Average(Agreements(m, a))
  {
    AgreementsBelow(m, a, b);
    if Agreements(m, a) != [] {
      AverageBelow(Agreements(m, b), Agreements(m, a));
    }
  }

  /** Worse evidence never turns "escalate" into "trust", under any list of the built-in rules. */
  lemma DecisionMonotone(p: Policy, m: Measures, tier: string, text: string, a: seq<Assessment>, b: seq<Assessment>,
                         k: Critique, k': Critique)
    requires ValidPolicy(p) && Rounding(m.round) && a != [] && b != []
    requires SamplesNoBetter(m, a, b) && CritiqueNoBetter(k, k')
    requires Decide(p, m, tier, text, a, k)
    ensures Decide(p, m, tier, text, b, k')
  {
    ValuesNoLower(p, m, text, a, b, k, k');
    ConfidenceBelow(a, b);
    TokensBelow(a, b);
    EscalationMonotone(p, m.round, m.parts(text), CaseOf(p, m, tier, text, a, k), CaseOf(p, m, tier, text, b, k'));
  }

  /** Under the default rules a request for help always escalates, whatever else it changes: samples, critique or score. */
  lemma HelpAlwaysEscalates(p: Policy, m: Measures, tier: string, text: string, samples: seq<Assessment>, critique: Critique,
                            criticMin: real, tokenMax: real, minTokens: nat)
    requires samples != [] && |p.weights| == SIGNALS && p.rules == DefaultRules(criticMin, tokenMax, minTokens)
    requires Requested(samples)
    ensures Decide(p, m, tier, text, samples, critique)
  {
    assert Opinion(p.rules[0], m.round, CaseOf(p, m, tier, text, samples, critique)) == Some(true);
  }

  /** Both together: more against the answer, or a new request for help with the skipped critique that comes with it. */
  lemma NeverBackToTrust(p: Policy, m: Measures, tier: string, text: string, a: seq<Assessment>, b: seq<Assessment>,
                         k: Critique, k': Critique, criticMin: real, tokenMax: real, minTokens: nat)
    requires ValidPolicy(p) && Rounding(m.round) && a != [] && b != []
    requires p.rules == DefaultRules(criticMin, tokenMax, minTokens) && Decide(p, m, tier, text, a, k)
    requires Requested(b) || (SamplesNoBetter(m, a, b) && CritiqueNoBetter(k, k'))
    ensures Decide(p, m, tier, text, b, k')
  {
    if Requested(b) {
      HelpAlwaysEscalates(p, m, tier, text, b, k', criticMin, tokenMax, minTokens);
    } else {
      DecisionMonotone(p, m, tier, text, a, b, k, k');
    }
  }

  // ---- Token statistics that become available ----

  /** The same case with a token signal that was missing before. */
  predicate Arrives(c: Case, c': Case, x: real)
    requires |c.values| == SIGNALS
  {
    && c.values[1].None? && 0.0 <= x <= 1.0 && c.tokens <= c'.tokens
    && c' == c.(values := c.values[1 := Some(x)], tokens := c'.tokens)
  }

  lemma ArrivalKeepsOpinions(rules: seq<Rule>, round: real -> real, c: Case, c': Case, x: real)
    requires |c.values| == SIGNALS && Arrives(c, c', x)
    ensures FirstOpinion(rules, round, c) == Some(true) ==> FirstOpinion(rules, round, c') == Some(true)
    ensures FirstOpinion(rules, round, c).Some? ==> FirstOpinion(rules, round, c) == Some(true)
    ensures FirstOpinion(rules, round, c').Some? ==> FirstOpinion(rules, round, c') == Some(true)
  {
    OpinionsOnlyEscalate(rules, round, c);
    OpinionsOnlyEscalate(rules, round, c');
    if i :| 0 <= i < |rules| && Opinion(rules[i], round, c).Some? {
      assert Opinion(rules[i], round, c').Some?;
    }
  }

  /** The score falls only if the new signal is below it. */
  lemma ArrivalScore(w: seq<real>, v: seq<Option<real>>, x: real)
    requires |w| == |v| == SIGNALS && NonNegative(w) && Between(v, 0.0, 1.0) && 0.0 <= x <= 1.0 && v[1].None?
    requires x >= Combine(w, v)
    ensures Combine(w, v[1 := Some(x)]) >= Combine(w, v)
  {
    TotalNonNegative(w, v);
    if w[1] == 0.0 {
      assert w[1 := 0.0] == w && v[1 := None] == v;
      MissingIsWeightless(w, v, 1, x);
    } else if WeightSum(w, v) > 0.0 {
      AddedSignalPulls(w, v, 1, x);
    }
  }

  /** A token signal that is no lower than the score it joins never turns "escalate" into "trust". */
  lemma ArrivalKeepsEscalation(p: Policy, round: real -> real, parts: nat, c: Case, c': Case, x: real)
    requires ValidPolicy(p) && Rounding(round) && |c.values| == SIGNALS && Between(c.values, 0.0, 1.0) && Arrives(c, c', x)
    requires x >= Combine(p.weights, c.values) && Escalates(p, round, parts, c)
    ensures Escalates(p, round, parts, c')
  {
    ArrivalKeepsOpinions(p.rules, round, c, c', x);
    ArrivalScore(p.weights, c.values, x);
  }

  /** It turns exactly if no rule speaks up and the score falls from the threshold or above to below it. */
  lemma ArrivalTurnsIff(p: Policy, round: real -> real, parts: nat, c: Case, c': Case, x: real)
    requires ValidPolicy(p) && |c.values| == SIGNALS && Arrives(c, c', x)
    ensures Escalates(p, round, parts, c) && !Escalates(p, round, parts, c') <==>
      && !BigGoal(p, parts) && FirstOpinion(p.rules, round, c').None?
      && round(Combine(p.weights, c'.values)) < Threshold(p, c.tier) <= round(Combine(p.weights, c.values))
  {
    ArrivalKeepsOpinions(p.rules, round, c, c', x);
  }

  /** The same samples, once without and once with token statistics. */
  predicate StatsArrive(a: seq<Assessment>, b: seq<Assessment>) {
    |a| == |b| && forall i :: 0 <= i < |a| ==> a[i] == b[i].(stats := None)
  }

  lemma {:induction false} NoTokens(signal: TokenSignal, samples: seq<Assessment>)
    requires forall i :: 0 <= i < |samples| ==> samples[i].stats.None?
    ensures TokenNumbers(signal, samples) == [] && TokenCount(samples) == 0
  {
    if samples != [] {
      NoTokens(signal, samples[..|samples| - 1]);
    }
  }

  lemma {:induction false} SameAgreements(m: Measures, a: seq<Assessment>, b: seq<Assessment>)
    requires StatsArrive(a, b)
    ensures Agreements(m, a) == Agreements(m, b)
  {
    if a != [] {
      SameAgreements(m, a[..|a| - 1], b[..|b| - 1]);
    }
  }

  lemma SameRest(m: Measures, a: seq<Assessment>, b: seq<Assessment>)
    requires a != [] && StatsArrive(a, b)
    ensures Confidences(a) == Confidences(b) && Requested(a) == Requested(b) && a[0].answer == b[0].answer
  {
    assert forall i :: 0 <= i < |a| ==> a[i].needsEscalation == b[i].needsEscalation;
    if Requested(b) {
      var i :| 0 <= i < |b| && b[i].needsEscalation;
      assert a[i].needsEscalation;
    }
  }

  lemma UncertaintyInUnit(signal: TokenSignal, samples: seq<Assessment>)
    requires TokenNumbers(signal, samples) != []
    ensures TokenUncertainty(signal, samples).Some? && 0.0 <= TokenUncertainty(signal, samples).value <= 1.0
  {
  }

  lemma ArrivedValues(p: Policy, m: Measures, text: string, a: seq<Assessment>, b: seq<Assessment>, k: Critique)
    requires a != [] && b != [] && StatsArrive(a, b)
    ensures Values(p, m, text, a, k)[1].None?
    ensures Values(p, m, text, b, k) == Values(p, m, text, a, k)[1 := TokenUncertainty(p.tokenSignal, b)]
  {
    NoTokens(p.tokenSignal, a);
    SameAgreements(m, a, b);
    SameRest(m, a, b);
    TokenSlot(Confidences(a), None, TokenUncertainty(p.tokenSignal, b), Agreements(m, a), k.severity, m.complexity(text),
      Requested(a));
  }

  lemma TokenSlot(confidences: seq<real>, before: Option<real>, after: Option<real>, agreements: seq<real>, severity: real,
                  complexity: real, requested: bool)
    requires confidences != []
    ensures SixSignals(confidences, before, agreements, severity, complexity, requested)[1] == before
    ensures SixSignals(confidences, after, agreements, severity, complexity, requested)
      == SixSignals(confidences, before, agreements, severity, complexity, requested)[1 := after]
  {
  }

  lemma ArrivesOnSamples(p: Policy, m: Measures, tier: string, text: string, a: seq<Assessment>, b: seq<Assessment>, k: Critique)
    requires a != [] && b != [] && StatsArrive(a, b) && TokenNumbers(p.tokenSignal, b) != []
    ensures TokenUncertainty(p.tokenSignal, b).Some?
    ensures Arrives(CaseOf(p, m, tier, text, a, k), CaseOf(p, m, tier, text, b, k), TokenUncertainty(p.tokenSignal, b).value)
  {
    ArrivedValues(p, m, text, a, b, k);
    UncertaintyInUnit(p.tokenSignal, b);
    NoTokens(p.tokenSignal, a);
    SameRest(m, a, b);
  }

  /** On what the models said: statistics no surer than the score keep "escalate". */
  lemma TokensKeepEscalation(p: Policy, m: Measures, tier: string, text: string, a: seq<Assessment>, b: seq<Assessment>, k: Critique)
    requires ValidPolicy(p) && ValidMeasures(m) && SaneEvidence(a, k) && b != [] && StatsArrive(a, b)
    requires TokenNumbers(p.tokenSignal, b) != []
    requires TokenUncertainty(p.tokenSignal, b).value >= Combine(p.weights, Values(p, m, text, a, k))
    requires Decide(p, m, tier, text, a, k)
    ensures Decide(p, m, tier, text, b, k)
  {
    ArrivesOnSamples(p, m, tier, text, a, b, k);
    ValuesInUnit(p, m, text, a, k);
    ArrivalKeepsEscalation(p, m.round, m.parts(text), CaseOf(p, m, tier, text, a, k), CaseOf(p, m, tier, text, b, k),
      TokenUncertainty(p.tokenSignal, b).value);
  }

  // A model that is 60% confident, once without token statistics and once with a sure choice of every token.

  const TURN_POLICY := Policy(0.3, map[], 1, true, Hesitation, false, [1.0, 1.0, 0.0, 0.0, 0.0, 0.0],
                              DefaultRules(0.5, 0.12, 3), true, None, 4, 2, true, 2)
  const TURN_BEFORE := [Assessment("x", 0.6, false, None)]
  const TURN_AFTER := [Assessment("x", 0.6, false, Some(TokenStats(1.0, 0.0, 5)))]
  const TURN_CRITIQUE := Critique(true, 0.0, false)

  lemma SixSums(w: seq<real>, v: seq<Option<real>>)
    requires |w| == |v| == SIGNALS
    ensures WeightSum(w, v) == Weight(w[0], v[0]) + Weight(w[1], v[1]) + Weight(w[2], v[2]) + Weight(w[3], v[3])
      + Weight(w[4], v[4]) + Weight(w[5], v[5])
    ensures Weighted(w, v) == Term(w[0], v[0]) + Term(w[1], v[1]) + Term(w[2], v[2]) + Term(w[3], v[3])
      + Term(w[4], v[4]) + Term(w[5], v[5])
  {
    assert w[..5][..4] == w[..4] && w[..4][..3] == w[..3] && w[..3][..2] == w[..2] && w[..2][..1] == w[..1] && w[..1][..0] == [];
    assert v[..5][..4] == v[..4] && v[..4][..3] == v[..3] && v[..3][..2] == v[..2] && v[..2][..1] == v[..1] && v[..1][..0] == [];
    assert WeightSum(w[..1], v[..1]) == Weight(w[0], v[0]) && Weighted(w[..1], v[..1]) == Term(w[0], v[0]);
    assert WeightSum(w[..2], v[..2]) == WeightSum(w[..1], v[..1]) + Weight(w[1], v[1]);
    assert Weighted(w[..2], v[..2]) == Weighted(w[..1], v[..1]) + Term(w[1], v[1]);
    assert WeightSum(w[..3], v[..3]) == WeightSum(w[..2], v[..2]) + Weight(w[2], v[2]);
    assert Weighted(w[..3], v[..3]) == Weighted(w[..2], v[..2]) + Term(w[2], v[2]);
    assert WeightSum(w[..4], v[..4]) == WeightSum(w[..3], v[..3]) + Weight(w[3], v[3]);
    assert Weighted(w[..4], v[..4]) == Weighted(w[..3], v[..3]) + Term(w[3], v[3]);
    assert WeightSum(w[..5], v[..5]) == WeightSum(w[..4], v[..4]) + Weight(w[4], v[4]);
    assert Weighted(w[..5], v[..5]) == Weighted(w[..4], v[..4]) + Term(w[4], v[4]);
  }

  function Weight(w: real, v: Option<real>): real {
    if v.Some? then w else 0.0
  }

  lemma TurnMean(t: Option<real>, z: real)
    ensures Mean([1.0, 1.0, 0.0, 0.0, 0.0, 0.0], [Some(0.4), t, Some(0.0), Some(0.0), Some(z), Some(0.0)])
      == if t.Some? then (0.4 + t.value) / 2.0 else 0.4
  {
    SixSums([1.0, 1.0, 0.0, 0.0, 0.0, 0.0], [Some(0.4), t, Some(0.0), Some(0.0), Some(z), Some(0.0)]);
  }

  lemma TurnValues(m: Measures, text: string)
    ensures Values(TURN_POLICY, m, text, TURN_BEFORE, TURN_CRITIQUE)
      == [Some(0.4), None, Some(0.0), Some(0.0), Some(m.complexity(text)), Some(0.0)]
    ensures TokenUncertainty(Hesitation, TURN_AFTER) == Some(0.0) && StatsArrive(TURN_BEFORE, TURN_AFTER)
    ensures !Requested(TURN_BEFORE) && !Requested(TURN_AFTER)
  {
    assert TURN_BEFORE[..0] == [] && TURN_AFTER[..0] == [];
    assert Agreements(m, TURN_BEFORE) == [];
    NoTokens(Hesitation, TURN_BEFORE);
    assert Confidences(TURN_BEFORE) == [0.6] && TokenNumbers(Hesitation, TURN_AFTER) == [0.0];
    AverageOfOne(0.6);
    AverageOfOne(0.0);
  }

  lemma AverageOfOne(x: real)
    ensures Average([x]) == x
  {
    var xs := [x];
    assert xs[..|xs| - 1] == [];
    assert Sum(xs) == x;
  }

  /** One more number moves the average by its share, so together with `AverageOfOne` this says what an average is. */
  lemma AverageNext(xs: seq<real>, x: real)
    requires xs != []
    ensures Average(xs + [x]) * (|xs| + 1) as real == Average(xs) * |xs| as real + x
  {
    assert (xs + [x])[..|xs|] == xs;
    assert Average(xs) * |xs| as real == Sum(xs) && Average(xs + [x]) * (|xs| + 1) as real == Sum(xs + [x]);
  }

  lemma AverageOfTwo(x: real, y: real)
    ensures Average([x, y]) == (x + y) / 2.0
  {
    AverageOfOne(x);
    AverageNext([x], y);
    assert [x] + [y] == [x, y];
  }

  /** When the default rules have nothing to say. */
  lemma QuietRules(criticMin: real, tokenMax: real, minTokens: nat, round: real -> real, c: Case)
    requires |c.values| == SIGNALS && !c.requested && !c.empty && c.critique.passed
    requires c.values[1].None? || round(c.values[1].value) < tokenMax
    ensures FirstOpinion(DefaultRules(criticMin, tokenMax, minTokens), round, c).None?
  {
    var rules := DefaultRules(criticMin, tokenMax, minTokens);
    OpinionsOnlyEscalate(rules, round, c);
    forall i | 0 <= i < |rules| ensures Opinion(rules[i], round, c).None? {
      assert i == 0 || i == 1 || i == 2 || i == 3;
    }
  }

  lemma TurnBefore(m: Measures, text: string)
    requires Rounding(m.round)
    ensures Decide(TURN_POLICY, m, "local", text, TURN_BEFORE, TURN_CRITIQUE)
  {
    TurnValues(m, text);
    TurnMean(None, m.complexity(text));
    var c := CaseOf(TURN_POLICY, m, "local", text, TURN_BEFORE, TURN_CRITIQUE);
    assert TURN_BEFORE[0].answer[0] == 'x' && !c.empty;
    QuietRules(0.5, 0.12, 3, m.round, c);
    assert Combine(TURN_POLICY.weights, c.values) == 0.4;
  }

  lemma TurnAfter(m: Measures, text: string)
    requires Rounding(m.round)
    ensures !Decide(TURN_POLICY, m, "local", text, TURN_AFTER, TURN_CRITIQUE)
  {
    TurnValues(m, text);
    ArrivedValues(TURN_POLICY, m, text, TURN_BEFORE, TURN_AFTER, TURN_CRITIQUE);
    TurnMean(Some(0.0), m.complexity(text));
    var c := CaseOf(TURN_POLICY, m, "local", text, TURN_AFTER, TURN_CRITIQUE);
    assert c.values == [Some(0.4), Some(0.0), Some(0.0), Some(0.0), Some(m.complexity(text)), Some(0.0)];
    assert TURN_AFTER[0].answer[0] == 'x' && !c.empty;
    QuietRules(0.5, 0.12, 3, m.round, c);
    assert Combine(TURN_POLICY.weights, c.values) == 0.2;
  }

  /** A concrete case: statistics that become available turn "escalate" into "trust". */
  lemma TokensCanTurn(m: Measures, text: string)
    requires Rounding(m.round)
    ensures ValidPolicy(TURN_POLICY) && StatsArrive(TURN_BEFORE, TURN_AFTER)
    ensures Decide(TURN_POLICY, m, "local", text, TURN_BEFORE, TURN_CRITIQUE)
    ensures !Decide(TURN_POLICY, m, "local", text, TURN_AFTER, TURN_CRITIQUE)
  {
    TurnBefore(m, text);
    TurnAfter(m, text);
  }
}
