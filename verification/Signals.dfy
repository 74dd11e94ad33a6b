/** What each of the six signals says about the samples and the critique, and a case that disagreement alone decides. */
module Signals {
  import opened Json
  import opened Policies

  // ---- Averages ----

  predicate AllBetween(xs: seq<real>, lo: real, hi: real) {
    forall i :: 0 <= i < |xs| ==> lo <= xs[i] <= hi
  }

  lemma {:induction false} SumBetween(xs: seq<real>, lo: real, hi: real)
    requires AllBetween(xs, lo, hi)
    ensures Share(lo, |xs| as real) <= Sum(xs) <= Share(hi, |xs| as real)
  {
    if xs != [] {
      var n := |xs| - 1;
      SumBetween(xs[..n], lo, hi);
      ShareAdds(lo, n as real, 1.0);
      ShareAdds(hi, n as real, 1.0);
    }
  }

  lemma AverageBetween(xs: seq<real>, lo: real, hi: real)
    requires xs != [] && AllBetween(xs, lo, hi)
    ensures lo <= Average(xs) <= hi
  {
    SumBetween(xs, lo, hi);
    Quotient(Sum(xs), |xs| as real, lo);
    Quotient(Sum(xs), |xs| as real, hi);
  }

  // ---- Pairs of samples ----

  /** The number of pairs among n samples. */
  function Pairs(n: nat): nat {
    if n == 0 then 0 else Pairs(n - 1) + n - 1
  }

  lemma {:induction false} PairsOf(n: nat)
    ensures 2 * Pairs(n) == n * (n - 1) && (n >= 2 <==> Pairs(n) > 0)
  {
    if n > 0 {
      PairsOf(n - 1);
      assert n * (n - 1) == (n - 1) * (n - 2) + 2 * (n - 1);
    }
  }

  lemma {:induction false} AsManyAsPairs(m: Measures, samples: seq<Assessment>)
    ensures |Agreements(m, samples)| == Pairs(|samples|)
  {
    if samples != [] {
      AsManyAsPairs(m, samples[..|samples| - 1]);
    }
  }

  /** Every pair is compared once: the comparison with sample j comes after those among the samples before j. */
  lemma {:induction false} PairCompared(m: Measures, samples: seq<Assessment>, i: nat, j: nat)
    requires i < j < |samples|
    ensures Pairs(j) + i < |Agreements(m, samples)|
    ensures Agreements(m, samples)[Pairs(j) + i] == m.agreement(samples[i].answer, samples[j].answer)
  {
    var n := |samples| - 1;
    AsManyAsPairs(m, samples[..n]);
    if j < n {
      PairCompared(m, samples[..n], i, j);
    }
  }

  /** And nothing else is. */
  lemma {:induction false} OnlyPairs(m: Measures, samples: seq<Assessment>, lo: real, hi: real)
    requires forall i, j :: 0 <= i < j < |samples| ==> lo <= m.agreement(samples[i].answer, samples[j].answer) <= hi
    ensures AllBetween(Agreements(m, samples), lo, hi)
  {
    if samples != [] {
      OnlyPairs(m, samples[..|samples| - 1], lo, hi);
    }
  }

  // ---- Token statistics ----

  function Statistic(signal: TokenSignal, stats: TokenStats): real {
    if signal.Hesitation? then stats.hesitation else stats.prob
  }

  lemma {:induction false} NumbersBetween(signal: TokenSignal, samples: seq<Assessment>, lo: real, hi: real)
    requires forall i :: 0 <= i < |samples| && samples[i].stats.Some? ==> lo <= Statistic(signal, samples[i].stats.value) <= hi
    ensures AllBetween(TokenNumbers(signal, samples), lo, hi)
    ensures TokenNumbers(signal, samples) == [] <==> forall i :: 0 <= i < |samples| ==> samples[i].stats.None?
  {
    if samples != [] {
      NumbersBetween(signal, samples[..|samples| - 1], lo, hi);
    }
  }

  /** The longest answer counts: no sample has more tokens, and one has as many unless all have none. */
  lemma {:induction false} TokenCountIsMost(samples: seq<Assessment>)
    ensures forall i :: 0 <= i < |samples| && samples[i].stats.Some? ==> samples[i].stats.value.count <= TokenCount(samples)
    ensures TokenCount(samples) > 0 ==>
      exists i :: 0 <= i < |samples| && samples[i].stats.Some? && samples[i].stats.value.count == TokenCount(samples)
  {
    if samples != [] {
      var n := |samples| - 1;
      TokenCountIsMost(samples[..n]);
      if TokenCount(samples) > TokenCount(samples[..n]) {
        assert samples[n].stats.Some?;
      }
    }
  }

  lemma TokenUncertaintyBetween(signal: TokenSignal, samples: seq<Assessment>, lo: real, hi: real)
    requires 0.0 <= lo <= hi <= 1.0
    requires forall i :: 0 <= i < |samples| && samples[i].stats.Some? ==> lo <= Statistic(signal, samples[i].stats.value) <= hi
    ensures var u := TokenUncertainty(signal, samples);
      && (u.None? <==> forall i :: 0 <= i < |samples| ==> samples[i].stats.None?)
      && (u.Some? ==> if signal.Hesitation? then lo <= u.value <= hi else 1.0 - hi <= u.value <= 1.0 - lo)
  {
    NumbersBetween(signal, samples, lo, hi);
    var numbers := TokenNumbers(signal, samples);
    if numbers != [] {
      AverageBetween(numbers, lo, hi);
    }
  }

  // ---- The six signals ----

  /** A closed range of numbers. */
  datatype Range = Range(lo: real, hi: real)

  predicate In(x: real, r: Range) {
    r.lo <= x <= r.hi
  }

  /** What 1 - x ranges over. */
  function Rest(r: Range): Range {
    Range(1.0 - r.hi, 1.0 - r.lo)
  }

  /** Confidences, pairwise agreements and token statistics lie in these ranges. */
  ghost predicate Ranged(p: Policy, m: Measures, samples: seq<Assessment>, confidence: Range, agreement: Range, token: Range) {
    && (forall i :: 0 <= i < |samples| ==> In(samples[i].confidence, confidence))
    && (forall i, j :: 0 <= i < j < |samples| ==> In(m.agreement(samples[i].answer, samples[j].answer), agreement))
    && (forall i :: 0 <= i < |samples| && samples[i].stats.Some? ==> In(Statistic(p.tokenSignal, samples[i].stats.value), token))
  }

  /**
   What the signals say: doubt where the model is not confident, where its tokens are unsure and where its samples
   disagree, each by as much; one sample cannot disagree; then the critic's severity, the complexity of the request, and
   whether any sample asks for help.
   */
  lemma SignalsMean(p: Policy, m: Measures, text: string, samples: seq<Assessment>, critique: Critique, confidence: Range,
                    agreement: Range, token: Range)
    requires samples != [] && Ranged(p, m, samples, confidence, agreement, token) && 0.0 <= token.lo <= token.hi <= 1.0
    ensures var v := Values(p, m, text, samples, critique);
      && |v| == SIGNALS && v[0].Some? && In(v[0].value, Rest(confidence))
      && (v[1].None? <==> forall i :: 0 <= i < |samples| ==> samples[i].stats.None?)
      && (v[1].Some? ==> In(v[1].value, if p.tokenSignal.Hesitation? then token else Rest(token)))
      && v[2].Some? && (if |samples| == 1 then v[2].value == 0.0 else In(v[2].value, Rest(agreement)))
      && v[3] == Some(critique.severity) && v[4] == Some(m.complexity(text))
      && v[5] == Some(if exists i :: 0 <= i < |samples| && samples[i].needsEscalation then 1.0 else 0.0)
  {
    AverageBetween(Confidences(samples), confidence.lo, confidence.hi);
    TokenUncertaintyBetween(p.tokenSignal, samples, token.lo, token.hi);
    AsManyAsPairs(m, samples);
    PairsOf(|samples|);
    OnlyPairs(m, samples, agreement.lo, agreement.hi);
    if Agreements(m, samples) != [] {
      AverageBetween(Agreements(m, samples), agreement.lo, agreement.hi);
    }
  }

  /** Two samples, exactly. */
  lemma TwoSamples(p: Policy, m: Measures, text: string, first: Assessment, second: Assessment, critique: Critique)
    ensures var v := Values(p, m, text, [first, second], critique);
      && v[0] == Some(1.0 - (first.confidence + second.confidence) / 2.0)
      && v[2] == Some(1.0 - m.agreement(first.answer, second.answer))
  {
    var both := [first, second];
    assert Confidences(both) == [first.confidence, second.confidence];
    AverageOfTwo(first.confidence, second.confidence);
    AsManyAsPairs(m, both);
    PairCompared(m, both, 0, 1);
    assert Pairs(2) == 1 && Pairs(1) == 0;
    assert Agreements(m, both) == [m.agreement(first.answer, second.answer)];
    AverageOfOne(m.agreement(first.answer, second.answer));
  }

  // ---- The default policy on two answers ----

  const DEFAULT := Policy(0.3, map["mid" := 0.25], 2, true, MeanProbability, true, [0.25, 0.3, 0.25, 0.25, 0.1, 0.1],
                          DefaultRules(0.5, 0.12, 3), true, None, 4, 2, true, 2)
  const MILD := Critique(true, 0.1, false)

  function Sure(answer: string): Assessment {
    Assessment(answer, 0.9, false, None)
  }

  lemma SureValues(m: Measures, text: string, a: string, b: string)
    ensures Values(DEFAULT, m, text, [Sure(a), Sure(b)], MILD)
      == [Some(0.1), None, Some(1.0 - m.agreement(a, b)), Some(0.1), Some(m.complexity(text)), Some(0.0)]
    ensures !Requested([Sure(a), Sure(b)])
  {
    TwoSamples(DEFAULT, m, text, Sure(a), Sure(b), MILD);
    NumbersBetween(MeanProbability, [Sure(a), Sure(b)], 0.0, 1.0);
  }

  /** The score for this much disagreement, in an otherwise mild case. */
  function SureScore(doubt: real): real {
    (0.055 + 0.25 * doubt) / 0.95
  }

  lemma SureMean(doubt: real)
    requires 0.0 <= doubt <= 1.0
    ensures Combine([0.25, 0.3, 0.25, 0.25, 0.1, 0.1], [Some(0.1), None, Some(doubt), Some(0.1), Some(0.05), Some(0.0)])
      == SureScore(doubt)
  {
    SixSums([0.25, 0.3, 0.25, 0.25, 0.1, 0.1], [Some(0.1), None, Some(doubt), Some(0.1), Some(0.05), Some(0.0)]);
  }

  lemma SureDecision(m: Measures, tier: string, text: string, a: string, b: string)
    requires m.parts(text) < 4 && m.complexity(text) == 0.05 && !Blank(a) && 0.0 <= m.agreement(a, b) <= 1.0
    ensures Decide(DEFAULT, m, tier, text, [Sure(a), Sure(b)], MILD) <==>
      m.round(SureScore(1.0 - m.agreement(a, b))) >= if tier == "mid" then 0.25 else 0.3
  {
    SureValues(m, text, a, b);
    SureMean(1.0 - m.agreement(a, b));
    QuietRules(0.5, 0.12, 3, m.round, CaseOf(DEFAULT, m, tier, text, [Sure(a), Sure(b)], MILD));
  }

  lemma SureRounds(round: real -> real)
    requires Rounding(round)
    ensures round(SureScore(0.0)) < 0.3 <= round(SureScore(1.0))
  {
    var low, high := SureScore(0.0), SureScore(1.0);
    assert low < 0.1 && high > 0.31;
    assert round(low) <= low + HALF_UNIT && high - HALF_UNIT <= round(high);
  }

  /** The settings and text measures of the cases below. */
  ghost predicate Plain(m: Measures, text: string, a: string) {
    Rounding(m.round) && m.parts(text) < 4 && m.complexity(text) == 0.05 && !Blank(a)
  }

  lemma AgreementTrusted(m: Measures, text: string, a: string)
    requires Plain(m, text, a) && m.agreement(a, a) == 1.0
    ensures !Decide(DEFAULT, m, "local", text, [Sure(a), Sure(a)], MILD)
  {
    SureRounds(m.round);
    SureDecision(m, "local", text, a, a);
  }

  lemma DisagreementEscalates(m: Measures, text: string, a: string, b: string)
    requires Plain(m, text, a) && m.agreement(a, b) == 0.0
    ensures Decide(DEFAULT, m, "local", text, [Sure(a), Sure(b)], MILD)
  {
    SureRounds(m.round);
    SureDecision(m, "local", text, a, b);
  }

  lemma DefaultIsValid()
    ensures ValidPolicy(DEFAULT)
  {
  }

  /**
   Under the default policy a model that twice answers with confidence 0.9, and whose critic finds little to object to, is
   trusted when its answers agree and not when they do not; nothing else differs.
   */
  lemma DisagreementDecides(m: Measures, text: string, a: string, b: string)
    requires Plain(m, text, a) && m.agreement(a, a) == 1.0 && m.agreement(a, b) == 0.0
    ensures ValidPolicy(DEFAULT)
    ensures !Decide(DEFAULT, m, "local", text, [Sure(a), Sure(a)], MILD)
    ensures Decide(DEFAULT, m, "local", text, [Sure(a), Sure(b)], MILD)
  {
    DefaultIsValid();
    AgreementTrusted(m, text, a);
    DisagreementEscalates(m, text, a, b);
  }

  lemma SureBetween(round: real -> real)
    requires Rounding(round)
    ensures 0.25 <= round(SureScore(0.8)) < 0.3
  {
    var score := SureScore(0.8);
    assert 0.26 < score < 0.27;
    assert score - HALF_UNIT <= round(score) <= score + HALF_UNIT;
  }

  /** Each tier has its own threshold: the same two answers, in fair disagreement, are trusted of "local" and not of "mid". */
  lemma TierThresholdDecides(m: Measures, text: string, a: string, b: string)
    requires Plain(m, text, a) && m.agreement(a, b) == 0.2
    ensures !Decide(DEFAULT, m, "local", text, [Sure(a), Sure(b)], MILD)
    ensures Decide(DEFAULT, m, "mid", text, [Sure(a), Sure(b)], MILD)
  {
    SureBetween(m.round);
    SureDecision(m, "local", text, a, b);
    SureDecision(m, "mid", text, a, b);
  }
}
