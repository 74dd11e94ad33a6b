/**
 The local part of a run, as a function of what the models say: each local model in turn answers a few times and is
 criticised, until one is trusted. Everything a run records about it is determined by that.
 */
module LocalPhase {
  import opened Json
  import opened Budgets
  import opened Tiers
  import opened Policies
  import opened Scans
  import Tuning
  import Scheduler

  // ---- The models ----

  /**
   The models: what the n-th call of the run comes to, how replies to `solve` and `critique` are read, and what a
   worker's call comes to. Any behaviour of the models, however erratic, is some function of the call's number.
   `line` is the event lock when the workers start.
   */
  datatype World = World(
    outcome: nat -> Scheduler.Outcome,
    assess: (nat, Json) -> Assessment,
    judge: Json -> Critique,
    provider: (string, Scheduler.Payload) -> Scheduler.Outcome,
    line: Scheduler.Line
  )

  function Outcome(w: World, n: nat): Scheduler.Outcome {
    w.outcome(n)
  }

  function Assess(w: World, n: nat, value: Json): Assessment {
    w.assess(n, value)
  }

  function Judge(w: World, value: Json): Critique {
    w.judge(value)
  }

  ghost predicate Sane(w: World) {
    && (forall n, v :: 0.0 <= w.assess(n, v).confidence <= 1.0)
    && (forall v :: 0.0 <= w.judge(v).severity <= 1.0)
    && Scheduler.Orderly(w.line) && Scheduler.WatchersOnly(w.line.queue)
  }

  /** One request to the local models: which positions are skipped, and which evidence is not trusted. */
  datatype Query = Query(
    policy: Policy,
    world: World,
    local: seq<string>,
    skip: nat -> bool,
    escalate: (string, Tuning.Evidence) -> bool
  )

  ghost predicate Proper(q: Query) {
    q.policy.samples >= 1 && Distinct(q.local) && Sane(q.world)
  }

  /** The request skips and judges as the policy's own functions do on this text. */
  ghost predicate ByPolicy(q: Query, m: Measures, text: string) {
    && |q.policy.weights| == SIGNALS
    && (forall i: nat :: i < |q.local| ==>
          (q.skip(i) <==> Tuning.Skips(q.policy, q.local[i], q.local, m.complexity(text))))
    && (forall t, e: Tuning.Evidence :: e.samples != [] ==>
          (q.escalate(t, e) <==> Decide(q.policy, m, t, text, e.samples, e.critique)))
  }

  // ---- One model's turn ----

  const FAILED_SAMPLE := Assessment("", 0.0, true, None)

  /** The sample that the n-th call of the run gives; a failed call is an answer that asks for help. */
  function SampleFrom(w: World, n: nat): Assessment {
    match Outcome(w, n)
    case Replied(value) => Assess(w, n, value)
    case _ => FAILED_SAMPLE
  }

  datatype Sampled = Sampled(samples: seq<Assessment>, aborted: bool)

  /** The samples from number k on, if the next call is the n-th: up to S, and none after a request for help. */
  function Sampling(w: World, S: nat, n: nat, k: nat): Sampled
    requires k <= S
    decreases S - k
  {
    if k == S then Sampled([], false)
    else if Outcome(w, n).Aborted? then Sampled([], true)
    else if SampleFrom(w, n).needsEscalation then Sampled([SampleFrom(w, n)], false)
    else
      var rest := Sampling(w, S, n + 1, k + 1);
      Sampled([SampleFrom(w, n)] + rest.samples, rest.aborted)
  }

  function SolveCalls(tier: string, n: nat): seq<Record> {
    seq(n, i requires 0 <= i < n => Scheduler.Record(tier, Solve, "", i + 1))
  }

  /** The critique of the samples, if the critic's call is the n-th of the run. */
  function CritiqueFrom(p: Policy, w: World, samples: seq<Assessment>, n: nat): Critique {
    if !p.useCritic then Critique.Critique(true, 0.0, true)
    else if Requested(samples) then Critique.Critique(false, 1.0, true)
    else match Outcome(w, n)
      case Replied(value) => Judge(w, value)
      case _ => Critique.Critique(false, 1.0, false)
  }

  /** The next larger local model if there is one and cross criticism is on, else the model itself. */
  function CriticTier(p: Policy, tier: string, local: seq<string>): (critic: string)
    requires tier in local
    ensures critic in local
  {
    if p.crossCritic && IndexOf(local, tier) + 1 < |local| then local[IndexOf(local, tier) + 1] else tier
  }

  /** On a ladder the critic is local and one step up, except that the largest model and a lone critic stay put. */
  lemma CriticIsNextLarger(p: Policy, tiers: seq<string>, i: nat)
    requires Ladder(tiers) && i < |Locals(tiers)|
    ensures var local := Locals(tiers);
      CriticTier(p, local[i], local) == local[if p.crossCritic && i + 1 < |local| then i + 1 else i] != CLOUD
  {
    LocalsAreDistinct(tiers);
    PlaceOf(Locals(tiers), i);
  }

  lemma LocalsAreDistinct(tiers: seq<string>)
    requires Ladder(tiers)
    ensures Distinct(Locals(tiers))
  {
    LocalsOfLadder(tiers);
  }

  lemma PlaceOf(local: seq<string>, i: nat)
    requires i < |local| && Distinct(local)
    ensures local[i] !in local[..i] && local[i] !in local[i + 1..] && IndexOf(local, local[i]) == i
  {
  }

  /** The critic is asked unless it is disabled or the model itself asked for help. */
  function CriticCalls(p: Policy, local: seq<string>, tier: string, samples: seq<Assessment>): seq<Record>
    requires tier in local
  {
    if !p.useCritic || Requested(samples) then []
    else [Scheduler.Record(CriticTier(p, tier, local), Operation.Critique, "", |samples| + 1)]
  }

  /** What a turn leaves: evidence, calls on record, and whether it broke off. */
  datatype Turned = Turned(evidence: Tuning.Evidence, calls: seq<Record>, aborted: bool)

  /** The turn of this tier, if its first call is the n-th of the run. */
  function TurnOf(q: Query, tier: string, n: nat): Turned
    requires tier in q.local
  {
    var s := Sampling(q.world, q.policy.samples, n, 0);
    if s.aborted then
      Turned(Tuning.Evidence(s.samples, Critique.Critique(false, 1.0, false)), SolveCalls(tier, |s.samples| + 1), true)
    else
      var critics := CriticCalls(q.policy, q.local, tier, s.samples);
      Turned(Tuning.Evidence(s.samples, CritiqueFrom(q.policy, q.world, s.samples, n + |s.samples|)),
             SolveCalls(tier, |s.samples|) + critics,
             critics != [] && Outcome(q.world, n + |s.samples|).Aborted?)
  }

  // ---- What a turn means ----

  /** The samples are those of consecutive calls, the n-th being the first. */
  predicate SamplesFrom(w: World, n: nat, samples: seq<Assessment>) {
    forall i :: 0 <= i < |samples| ==> samples[i] == SampleFrom(w, n + i)
  }

  predicate SaneSamples(samples: seq<Assessment>) {
    forall i :: 0 <= i < |samples| ==> 0.0 <= samples[i].confidence <= 1.0
  }

  /** Sampling went on until the model asked for help or the last of S samples was taken. */
  predicate StopsWell(S: nat, samples: seq<Assessment>) {
    && 1 <= |samples| <= S && (|samples| == S || samples[|samples| - 1].needsEscalation)
    && forall i :: 0 <= i < |samples| - 1 ==> !samples[i].needsEscalation
  }

  lemma SampleIsSane(w: World, n: nat)
    requires Sane(w)
    ensures 0.0 <= SampleFrom(w, n).confidence <= 1.0
  {
  }

  /** What S samples from the n-th call on should be; breaking off leaves fewer. */
  ghost predicate SampledWell(w: World, S: nat, n: nat, s: Sampled) {
    && SamplesFrom(w, n, s.samples) && SaneSamples(s.samples) && |s.samples| <= S
    && (if s.aborted then |s.samples| < S else S > 0 ==> StopsWell(S, s.samples))
  }

  lemma FromOneMore(w: World, n: nat, first: Assessment, rest: seq<Assessment>)
    requires first == SampleFrom(w, n) && SamplesFrom(w, n + 1, rest)
    ensures SamplesFrom(w, n, [first] + rest)
  {
    forall i | 0 <= i < |[first] + rest| ensures ([first] + rest)[i] == SampleFrom(w, n + i) {
      if i > 0 {
        assert rest[i - 1] == SampleFrom(w, n + 1 + (i - 1));
      }
    }
  }

  lemma StopsOneMore(S: nat, first: Assessment, rest: seq<Assessment>)
    requires !first.needsEscalation && if S > 0 then StopsWell(S, rest) else rest == []
    ensures StopsWell(S + 1, [first] + rest)
  {
    var all := [first] + rest;
    assert rest != [] ==> all[|all| - 1] == rest[|rest| - 1];
    forall i | 0 <= i < |all| - 1 ensures !all[i].needsEscalation {
      if i > 0 {
        assert all[i] == rest[i - 1];
      }
    }
  }

  lemma OneMoreSample(w: World, S: nat, n: nat, first: Assessment, rest: Sampled)
    requires SampledWell(w, S, n + 1, rest) && first == SampleFrom(w, n) && 0.0 <= first.confidence <= 1.0
    requires !first.needsEscalation
    ensures SampledWell(w, S + 1, n, Sampled([first] + rest.samples, rest.aborted))
  {
    FromOneMore(w, n, first, rest.samples);
    if !rest.aborted {
      StopsOneMore(S, first, rest.samples);
    }
  }

  lemma {:induction false} SamplingSound(w: World, S: nat, n: nat, k: nat)
    requires k <= S && Sane(w)
    ensures SampledWell(w, S - k, n, Sampling(w, S, n, k))
    decreases S - k
  {
    if k < S && !Outcome(w, n).Aborted? {
      SampleIsSane(w, n);
      if !SampleFrom(w, n).needsEscalation {
        SamplingSound(w, S, n + 1, k + 1);
        OneMoreSample(w, S - k - 1, n, SampleFrom(w, n), Sampling(w, S, n + 1, k + 1));
      }
    }
  }

  /** The evidence is what the models said in the turn of this tier, whose calls are on record from the n-th on. */
  ghost predicate Turn(q: Query, tier: string, records: seq<Record>, n: nat, e: Tuning.Evidence) {
    && tier in q.local && SaneEvidence(e.samples, e.critique) && StopsWell(q.policy.samples, e.samples)
    && SamplesFrom(q.world, n, e.samples) && e.critique == CritiqueFrom(q.policy, q.world, e.samples, n + |e.samples|)
    && Logged(records, n, SolveCalls(tier, |e.samples|) + CriticCalls(q.policy, q.local, tier, e.samples))
  }

  lemma CritiqueIsSane(p: Policy, w: World, samples: seq<Assessment>, n: nat)
    requires Sane(w)
    ensures 0.0 <= CritiqueFrom(p, w, samples, n).severity <= 1.0
  {
  }

  lemma TurnIsSound(q: Query, tier: string, records: seq<Record>, n: nat)
    requires Proper(q) && tier in q.local && !TurnOf(q, tier, n).aborted && Logged(records, n, TurnOf(q, tier, n).calls)
    ensures Turn(q, tier, records, n, TurnOf(q, tier, n).evidence)
  {
    SamplingSound(q.world, q.policy.samples, n, 0);
    CritiqueIsSane(q.policy, q.world, TurnOf(q, tier, n).evidence.samples, n + |TurnOf(q, tier, n).evidence.samples|);
  }

  /** A turn makes at most S + 1 calls. */
  lemma TurnIsShort(q: Query, tier: string, n: nat)
    requires Proper(q) && tier in q.local
    ensures |TurnOf(q, tier, n).calls| <= q.policy.samples + 1
    ensures !TurnOf(q, tier, n).aborted ==> TurnOf(q, tier, n).evidence.samples != []
  {
    SamplingSound(q.world, q.policy.samples, n, 0);
  }

  // ---- All local models in turn ----

  /** The position is beyond the last tier, or the tier there is skipped. */
  predicate SkipsAt(q: Query, i: nat) {
    i >= |q.local| || q.skip(i)
  }

  function SkipsOf(q: Query): nat -> bool {
    (i: nat) => SkipsAt(q, i)
  }

  /** What happens at position i, if the next call is the n-th of the run. */
  function MoveAt(q: Query, i: nat, n: nat): Move {
    if SkipsAt(q, i) then Skip
    else
      var t := TurnOf(q, q.local[i], n);
      if t.aborted then Broke(t.calls)
      else Judged(t.calls, Verdict(q.local[i], t.evidence, q.escalate(q.local[i], t.evidence)))
  }

  function MovesOf(q: Query): Moves {
    (i: nat, n: nat) => MoveAt(q, i, n)
  }

  /** Asking the local models, the first call being the n-th of the run. */
  function Ask(q: Query, n: nat): Asked {
    Scan(MovesOf(q), |q.local|, 0, n)
  }

  lemma TrustedInRange(q: Query, n: nat)
    ensures Ask(q, n).trusted.Some? ==> Ask(q, n).trusted.value < |q.local| && !Ask(q, n).aborted
  {
    TrustedWithin(MovesOf(q), |q.local|, 0, n);
  }

  function VerdictsOf(marks: seq<Mark>): seq<Verdict> {
    seq(|marks|, k requires 0 <= k < |marks| => marks[k].verdict)
  }

  function TiersOf(verdicts: seq<Verdict>): seq<string> {
    seq(|verdicts|, k requires 0 <= k < |verdicts| => verdicts[k].tier)
  }

  function TiersAt(local: seq<string>, places: seq<nat>): seq<string> {
    seq(|places|, k requires 0 <= k < |places| => if places[k] < |local| then local[places[k]] else "")
  }

  // ---- What a run may say about it afterwards ----

  /** The verdict is the policy's decision on what the models said in this tier's turn, which is on record. */
  ghost predicate Sourced(q: Query, records: seq<Record>, v: Verdict) {
    v.escalate == q.escalate(v.tier, v.evidence) && exists n :: Turn(q, v.tier, records, n, v.evidence)
  }

  ghost predicate AllSourced(q: Query, records: seq<Record>, verdicts: seq<Verdict>) {
    forall k :: 0 <= k < |verdicts| ==> Sourced(q, records, verdicts[k])
  }

  /** Of the tiers below stop exactly the skipped ones are listed as skipped and exactly the others have a verdict, in order. */
  ghost predicate Considered(q: Query, stop: nat, verdicts: seq<Verdict>, skipped: seq<string>) {
    && stop <= |q.local| && skipped == TiersAt(q.local, Sieve(SkipsOf(q), 0, stop, true))
    && TiersOf(verdicts) == TiersAt(q.local, Sieve(SkipsOf(q), 0, stop, false))
  }

  /** This tier was trusted, and every tier before it was skipped or not trusted. */
  ghost predicate FirstTrusted(q: Query, verdicts: seq<Verdict>, skipped: seq<string>, tier: string) {
    && tier in q.local && Considered(q, IndexOf(q.local, tier) + 1, verdicts, skipped)
    && verdicts != [] && verdicts[|verdicts| - 1].tier == tier && !verdicts[|verdicts| - 1].escalate
    && forall k :: 0 <= k < |verdicts| - 1 ==> verdicts[k].escalate
  }

  /** Every tier was skipped or not trusted. */
  ghost predicate NobodyTrusted(q: Query, verdicts: seq<Verdict>, skipped: seq<string>) {
    Considered(q, |q.local|, verdicts, skipped) && forall k :: 0 <= k < |verdicts| ==> verdicts[k].escalate
  }

  /** What a mark says is so. */
  ghost predicate TrueMark(q: Query, records: seq<Record>, mark: Mark) {
    Sourced(q, records, mark.verdict) && mark.at < |q.local| && mark.verdict.tier == q.local[mark.at]
  }

  /** Moves whose marks are true, that skip as the request says, and that make at most S + 1 calls each. */
  ghost predicate SoundMoves(q: Query, move: Moves, records: seq<Record>) {
    && (forall mark: Mark :: Backed(move, records, mark) ==> TrueMark(q, records, mark))
    && SkipsBy(move, SkipsOf(q)) && forall i: nat, n: nat :: |CallsOf(move(i, n))| <= q.policy.samples + 1
  }

  lemma MoveIsSound(q: Query, records: seq<Record>, mark: Mark)
    requires Proper(q) && Backed(MovesOf(q), records, mark)
    ensures TrueMark(q, records, mark)
  {
    assert MovesOf(q)(mark.at, mark.n) == MoveAt(q, mark.at, mark.n);
    TurnIsSound(q, q.local[mark.at], records, mark.n);
  }

  lemma MoveIsShort(q: Query, i: nat, n: nat)
    requires Proper(q)
    ensures |CallsOf(MoveAt(q, i, n))| <= q.policy.samples + 1 && (MoveAt(q, i, n).Skip? <==> SkipsAt(q, i))
  {
    if !SkipsAt(q, i) {
      TurnIsShort(q, q.local[i], n);
    }
  }

  lemma MovesAreSound(q: Query, records: seq<Record>)
    requires Proper(q)
    ensures SoundMoves(q, MovesOf(q), records)
  {
    forall mark: Mark | Backed(MovesOf(q), records, mark) ensures TrueMark(q, records, mark) {
      MoveIsSound(q, records, mark);
    }
    forall i: nat, n: nat
      ensures |CallsOf(MovesOf(q)(i, n))| <= q.policy.samples + 1 && (MovesOf(q)(i, n).Skip? <==> SkipsOf(q)(i))
    {
      MoveIsShort(q, i, n);
    }
  }

  lemma MarksAreTrue(q: Query, move: Moves, records: seq<Record>, marks: seq<Mark>)
    requires SoundMoves(q, move, records) && AllBacked(move, records, marks)
    ensures AllSourced(q, records, VerdictsOf(marks)) && TiersOf(VerdictsOf(marks)) == TiersAt(q.local, Places(marks))
  {
    forall k | 0 <= k < |marks| ensures TrueMark(q, records, marks[k]) {
      assert Backed(move, records, marks[k]);
    }
  }

  lemma LastMark(marks: seq<Mark>)
    requires marks != []
    ensures Places(marks)[|marks| - 1] == marks[|marks| - 1].at && VerdictsOf(marks)[|marks| - 1] == marks[|marks| - 1].verdict
  {
  }

  lemma TrustsFirst(q: Query, a: Asked, t: nat)
    requires Distinct(q.local) && t < |q.local| && a.trusted == Some(t) && EndsWell(a) && Exact(a, SkipsOf(q), 0, t + 1)
    requires TiersOf(VerdictsOf(a.marks)) == TiersAt(q.local, Places(a.marks))
    ensures FirstTrusted(q, VerdictsOf(a.marks), TiersAt(q.local, a.skips), q.local[t])
  {
    LastMark(a.marks);
    PlaceOf(q.local, t);
    assert TiersOf(VerdictsOf(a.marks))[|a.marks| - 1] == q.local[t];
  }

  lemma TrustsNobody(q: Query, a: Asked)
    requires a.trusted == None && EndsWell(a) && Exact(a, SkipsOf(q), 0, |q.local|)
    requires TiersOf(VerdictsOf(a.marks)) == TiersAt(q.local, Places(a.marks))
    ensures NobodyTrusted(q, VerdictsOf(a.marks), TiersAt(q.local, a.skips))
  {
  }

  /** Where asking ended and what that means; `route` is the trusted tier, if any. */
  ghost predicate Meant(q: Query, a: Asked, records: seq<Record>, verdicts: seq<Verdict>, skipped: seq<string>) {
    && AllSourced(q, records, verdicts)
    && (a.trusted.Some? ==> a.trusted.value < |q.local| && FirstTrusted(q, verdicts, skipped, q.local[a.trusted.value]))
    && (a.trusted.None? && !a.aborted ==> NobodyTrusted(q, verdicts, skipped))
  }

  lemma ScanMeans(q: Query, move: Moves, n: nat, records: seq<Record>)
    requires Distinct(q.local) && SoundMoves(q, move, records) && Logged(records, n, Scan(move, |q.local|, 0, n).calls)
    ensures var a := Scan(move, |q.local|, 0, n); Meant(q, a, records, VerdictsOf(a.marks), TiersAt(q.local, a.skips))
  {
    var a := Scan(move, |q.local|, 0, n);
    MarksAreBacked(move, |q.local|, 0, n, records);
    MarksAreTrue(q, move, records, a.marks);
    ScanEndsWell(move, |q.local|, 0, n);
    TrustedWithin(move, |q.local|, 0, n);
    if !a.aborted {
      ListsAreExact(move, SkipsOf(q), |q.local|, 0, n);
      if a.trusted.Some? {
        TrustsFirst(q, a, a.trusted.value);
      } else {
        TrustsNobody(q, a);
      }
    }
  }

  /** Asking the local models means what it should, and takes at most L(S + 1) calls. */
  lemma AskMeans(q: Query, n: nat, records: seq<Record>)
    requires Proper(q) && Logged(records, n, Ask(q, n).calls)
    ensures Meant(q, Ask(q, n), records, VerdictsOf(Ask(q, n).marks), TiersAt(q.local, Ask(q, n).skips))
    ensures |Ask(q, n).calls| <= Times(|q.local|, q.policy.samples + 1)
  {
    MovesAreSound(q, records);
    ScanMeans(q, MovesOf(q), n, records);
    ScanIsShort(MovesOf(q), |q.local|, 0, n, q.policy.samples + 1);
  }

  /** A tier that is not local is never asked. */
  lemma AskSpares(q: Query, n: nat, tier: string)
    requires tier !in q.local
    ensures NoneTo(tier, Ask(q, n).calls)
  {
    forall i: nat, k: nat ensures NoneTo(tier, CallsOf(MovesOf(q)(i, k))) {
      MoveSpares(q, i, k, tier);
    }
    ScanSpares(MovesOf(q), |q.local|, 0, n, tier);
  }

  lemma MoveSpares(q: Query, i: nat, n: nat, tier: string)
    requires tier !in q.local
    ensures NoneTo(tier, CallsOf(MoveAt(q, i, n)))
  {
  }

  lemma TurnStays(q: Query, tier: string, records: seq<Record>, more: seq<Record>, n: nat, e: Tuning.Evidence)
    requires Turn(q, tier, records, n, e) && records <= more
    ensures Turn(q, tier, more, n, e)
  {
    LoggedStays(records, more, n, SolveCalls(tier, |e.samples|) + CriticCalls(q.policy, q.local, tier, e.samples));
  }

  /** What is on record stays on record. */
  lemma SourcedStays(q: Query, records: seq<Record>, more: seq<Record>, verdicts: seq<Verdict>)
    requires AllSourced(q, records, verdicts) && records <= more
    ensures AllSourced(q, more, verdicts)
  {
    forall k | 0 <= k < |verdicts| ensures Sourced(q, more, verdicts[k]) {
      assert Sourced(q, records, verdicts[k]);
      var n :| Turn(q, verdicts[k].tier, records, n, verdicts[k].evidence);
      TurnStays(q, verdicts[k].tier, records, more, n, verdicts[k].evidence);
    }
  }

  // ---- What the evidence of a turn rests on ----

  /** The critic's call, if it was asked, is the one after the samples. */
  predicate AsksCritic(q: Query, samples: seq<Assessment>) {
    q.policy.useCritic && forall i :: 0 <= i < |samples| ==> !samples[i].needsEscalation
  }

  /** A sample is the reading of its call's reply; a call that failed is an empty answer that asks for help. */
  lemma TurnSamples(q: Query, tier: string, records: seq<Record>, n: nat, e: Tuning.Evidence, i: nat)
    requires Turn(q, tier, records, n, e) && i < |e.samples|
    ensures n + i < |records| && records[n + i] == Scheduler.Record(tier, Solve, "", i + 1)
    ensures if Outcome(q.world, n + i).Replied? then e.samples[i] == Assess(q.world, n + i, Outcome(q.world, n + i).value)
      else e.samples[i].needsEscalation && e.samples[i].answer == "" && e.samples[i].confidence == 0.0 && e.samples[i].stats.None?
  {
    var calls := SolveCalls(tier, |e.samples|) + CriticCalls(q.policy, q.local, tier, e.samples);
    assert records[n + i] == calls[i];
  }

  /**
   The critique is the reading of the critic's reply, and a rejection of the greatest severity if the critic's call failed.
   It is skipped, with a pass, if the policy has no critic, and, with a rejection, if a sample asks for help.
   */
  lemma TurnCritique(q: Query, tier: string, records: seq<Record>, n: nat, e: Tuning.Evidence)
    requires Turn(q, tier, records, n, e)
    ensures !q.policy.useCritic ==> e.critique.skipped && e.critique.passed && e.critique.severity == 0.0
    ensures q.policy.useCritic && !AsksCritic(q, e.samples) ==>
      e.critique.skipped && !e.critique.passed && e.critique.severity == 1.0
    ensures AsksCritic(q, e.samples) ==>
      && n + |e.samples| < |records| && records[n + |e.samples|].op == Operation.Critique
      && records[n + |e.samples|].tier == CriticTier(q.policy, tier, q.local) && records[n + |e.samples|].attempt == |e.samples| + 1
      && match Outcome(q.world, n + |e.samples|)
         case Replied(value) => e.critique == Judge(q.world, value)
         case _ => !e.critique.skipped && !e.critique.passed && e.critique.severity == 1.0
  {
    var calls := SolveCalls(tier, |e.samples|) + CriticCalls(q.policy, q.local, tier, e.samples);
    if AsksCritic(q, e.samples) {
      assert records[n + |e.samples|] == calls[|e.samples|];
    }
  }

  /** Nothing in this turn speaks against the answer: every call replied, nobody asked for help, and the critic let it pass. */
  ghost predicate Spotless(q: Query, n: nat, e: Tuning.Evidence, criticMin: real) {
    && (forall i :: 0 <= i < |e.samples| ==> Outcome(q.world, n + i).Replied? && !e.samples[i].needsEscalation)
    && e.samples != [] && !Blank(e.samples[0].answer)
    && (q.policy.useCritic ==>
          && Outcome(q.world, n + |e.samples|).Replied? && e.critique == Judge(q.world, Outcome(q.world, n + |e.samples|).value)
          && (e.critique.passed || e.critique.skipped || e.critique.severity < criticMin))
  }

  lemma TrustIsQuiet(q: Query, m: Measures, text: string, tier: string, e: Tuning.Evidence, criticMin: real, tokenMax: real,
                     minTokens: nat)
    requires ByPolicy(q, m, text) && e.samples != [] && !q.escalate(tier, e)
    requires q.policy.rules == DefaultRules(criticMin, tokenMax, minTokens)
    ensures !Requested(e.samples) && !Blank(e.samples[0].answer)
    ensures !(!e.critique.skipped && !e.critique.passed && e.critique.severity >= criticMin)
  {
    Tuning.DefaultOpinions(criticMin, tokenMax, minTokens, m.round, CaseOf(q.policy, m, tier, text, e.samples, e.critique));
  }

  /**
   Under the default rules an answer is only trusted if every call of its turn replied: a failed sample or a failed check
   by the critic always escalates, as do a request for help, a blank answer and a rejection.
   */
  lemma TrustRestsOnReplies(q: Query, m: Measures, text: string, tier: string, records: seq<Record>, n: nat, e: Tuning.Evidence,
                            criticMin: real, tokenMax: real, minTokens: nat)
    requires ByPolicy(q, m, text) && Turn(q, tier, records, n, e) && !q.escalate(tier, e)
    requires q.policy.rules == DefaultRules(criticMin, tokenMax, minTokens) && criticMin <= 1.0
    ensures Spotless(q, n, e, criticMin)
  {
    TrustIsQuiet(q, m, text, tier, e, criticMin, tokenMax, minTokens);
    forall i | 0 <= i < |e.samples| ensures Outcome(q.world, n + i).Replied? && !e.samples[i].needsEscalation {
      TurnSamples(q, tier, records, n, e, i);
    }
    TurnCritique(q, tier, records, n, e);
  }

  /** The same of any verdict of a run: what a trusted one rests on is on record. */
  lemma TrustedVerdictIsSpotless(q: Query, m: Measures, text: string, records: seq<Record>, v: Verdict, criticMin: real,
                                 tokenMax: real, minTokens: nat) returns (n: nat)
    requires ByPolicy(q, m, text) && Sourced(q, records, v) && !v.escalate
    requires q.policy.rules == DefaultRules(criticMin, tokenMax, minTokens) && criticMin <= 1.0
    ensures Turn(q, v.tier, records, n, v.evidence) && Spotless(q, n, v.evidence, criticMin)
  {
    n :| Turn(q, v.tier, records, n, v.evidence);
    TrustRestsOnReplies(q, m, text, v.tier, records, n, v.evidence, criticMin, tokenMax, minTokens);
  }

  // ---- The route is the one the router's definition gives ----

  /** `full` agrees with what the verdicts rest on. */
  ghost predicate Holds(full: map<string, Tuning.Evidence>, verdicts: seq<Verdict>) {
    forall k :: 0 <= k < |verdicts| ==> verdicts[k].tier in full && full[verdicts[k].tier] == verdicts[k].evidence
  }

  ghost predicate PassedAt(q: Query, full: map<string, Tuning.Evidence>, j: nat) {
    SkipsAt(q, j) || (j < |q.local| && q.local[j] in full && q.escalate(q.local[j], full[q.local[j]]))
  }

  lemma {:induction false} SieveHas(skip: nat -> bool, i: nat, stop: nat, wanted: bool, j: nat) returns (k: nat)
    requires i <= j < stop && skip(j) == wanted
    ensures k < |Sieve(skip, i, stop, wanted)| && Sieve(skip, i, stop, wanted)[k] == j
    decreases stop - i
  {
    if i == j {
      k := 0;
    } else {
      var rest := SieveHas(skip, i + 1, stop, wanted, j);
      k := if skip(i) == wanted then rest + 1 else rest;
    }
  }

  /** A tier below stop that was not skipped has a verdict. */
  lemma VerdictFor(q: Query, stop: nat, verdicts: seq<Verdict>, skipped: seq<string>, j: nat) returns (k: nat)
    requires Considered(q, stop, verdicts, skipped) && j < stop && !SkipsAt(q, j)
    ensures k < |verdicts| && verdicts[k].tier == q.local[j]
  {
    k := SieveHas(SkipsOf(q), 0, stop, false, j);
    assert TiersOf(verdicts)[k] == q.local[j];
  }

  lemma PassedOn(q: Query, m: Measures, text: string, full: map<string, Tuning.Evidence>, j: nat)
    requires ByPolicy(q, m, text) && j < |q.local| && Tuning.Judged(q.local, full) && PassedAt(q, full, j)
    ensures Tuning.LiveFrom(q.policy, m, q.local, text, full, j) == Tuning.LiveFrom(q.policy, m, q.local, text, full, j + 1)
  {
    assert full[q.local[j]].samples != [];
  }

  lemma {:induction false} PassedOverRoute(q: Query, m: Measures, text: string, full: map<string, Tuning.Evidence>, j: nat, i: nat)
    requires ByPolicy(q, m, text) && j <= i <= |q.local| && Tuning.Judged(q.local, full)
    requires forall k: nat :: j <= k < i ==> PassedAt(q, full, k)
    ensures Tuning.LiveFrom(q.policy, m, q.local, text, full, j) == Tuning.LiveFrom(q.policy, m, q.local, text, full, i)
    decreases i - j
  {
    if j < i {
      PassedOn(q, m, text, full, j);
      PassedOverRoute(q, m, text, full, j + 1, i);
    }
  }

  lemma PassedBefore(q: Query, records: seq<Record>, verdicts: seq<Verdict>, skipped: seq<string>,
                     full: map<string, Tuning.Evidence>, stop: nat, j: nat)
    requires Considered(q, stop, verdicts, skipped) && AllSourced(q, records, verdicts) && Holds(full, verdicts) && j < stop
    requires forall k :: 0 <= k < |verdicts| && j < |q.local| && verdicts[k].tier == q.local[j] ==> verdicts[k].escalate
    ensures PassedAt(q, full, j)
  {
    if !SkipsAt(q, j) {
      var k := VerdictFor(q, stop, verdicts, skipped, j);
      assert Sourced(q, records, verdicts[k]);
    }
  }

  lemma TrustedHere(q: Query, m: Measures, text: string, full: map<string, Tuning.Evidence>, t: nat)
    requires ByPolicy(q, m, text) && t < |q.local| && Tuning.Judged(q.local, full)
    requires !SkipsAt(q, t) && !q.escalate(q.local[t], full[q.local[t]])
    ensures Tuning.LiveFrom(q.policy, m, q.local, text, full, t) == q.local[t]
  {
    assert full[q.local[t]].samples != [];
  }

  /** A trusted tier is the one the router's definition names, for any evidence that includes what was gathered. */
  lemma TrustedIsLiveRoute(q: Query, m: Measures, text: string, records: seq<Record>, verdicts: seq<Verdict>,
                           skipped: seq<string>, full: map<string, Tuning.Evidence>, tier: string)
    requires Distinct(q.local) && ByPolicy(q, m, text) && AllSourced(q, records, verdicts)
    requires Tuning.Judged(q.local, full) && Holds(full, verdicts) && FirstTrusted(q, verdicts, skipped, tier)
    ensures Tuning.LiveFrom(q.policy, m, q.local, text, full, 0) == tier
  {
    var t := IndexOf(q.local, tier);
    PassedBeforeTrusted(q, records, verdicts, skipped, full, tier);
    PassedOverRoute(q, m, text, full, 0, t);
    TrustedHere(q, m, text, full, t);
  }

  lemma PassedBeforeTrusted(q: Query, records: seq<Record>, verdicts: seq<Verdict>, skipped: seq<string>,
                            full: map<string, Tuning.Evidence>, tier: string)
    requires Distinct(q.local) && AllSourced(q, records, verdicts) && Holds(full, verdicts)
    requires FirstTrusted(q, verdicts, skipped, tier)
    ensures forall j: nat :: j < IndexOf(q.local, tier) ==> PassedAt(q, full, j)
    ensures !SkipsAt(q, IndexOf(q.local, tier)) && tier in full && !q.escalate(tier, full[tier])
  {
    var t := IndexOf(q.local, tier);
    assert Sourced(q, records, verdicts[|verdicts| - 1]);
    NotSkipped(q, verdicts, skipped, t, tier);
    forall j: nat | j < t ensures PassedAt(q, full, j) {
      EarlierEscalates(q, verdicts, tier, t, j);
      PassedBefore(q, records, verdicts, skipped, full, t + 1, j);
    }
  }

  lemma EarlierEscalates(q: Query, verdicts: seq<Verdict>, tier: string, t: nat, j: nat)
    requires Distinct(q.local) && j < t < |q.local| && q.local[t] == tier && verdicts != []
    requires verdicts[|verdicts| - 1].tier == tier && forall k :: 0 <= k < |verdicts| - 1 ==> verdicts[k].escalate
    ensures forall k :: 0 <= k < |verdicts| && verdicts[k].tier == q.local[j] ==> verdicts[k].escalate
  {
  }

  lemma {:induction false} SieveOnly(skip: nat -> bool, i: nat, stop: nat, wanted: bool, k: nat)
    requires i <= stop && k < |Sieve(skip, i, stop, wanted)|
    ensures i <= Sieve(skip, i, stop, wanted)[k] < stop && skip(Sieve(skip, i, stop, wanted)[k]) == wanted
    decreases stop - i
  {
    if skip(i) == wanted {
      if k > 0 {
        SieveOnly(skip, i + 1, stop, wanted, k - 1);
      }
    } else {
      SieveOnly(skip, i + 1, stop, wanted, k);
    }
  }

  lemma NotSkipped(q: Query, verdicts: seq<Verdict>, skipped: seq<string>, t: nat, tier: string)
    requires Distinct(q.local) && t < |q.local| && q.local[t] == tier && Considered(q, t + 1, verdicts, skipped)
    requires verdicts != [] && verdicts[|verdicts| - 1].tier == tier
    ensures !SkipsAt(q, t)
  {
    var last := |verdicts| - 1;
    assert TiersOf(verdicts)[last] == tier;
    SieveOnly(SkipsOf(q), 0, t + 1, false, last);
  }

  /** When nobody was trusted, the router's definition names the cloud. */
  lemma NobodyTrustedIsCloud(q: Query, m: Measures, text: string, records: seq<Record>, verdicts: seq<Verdict>,
                             skipped: seq<string>, full: map<string, Tuning.Evidence>)
    requires ByPolicy(q, m, text) && AllSourced(q, records, verdicts)
    requires Tuning.Judged(q.local, full) && Holds(full, verdicts) && NobodyTrusted(q, verdicts, skipped)
    ensures Tuning.LiveFrom(q.policy, m, q.local, text, full, 0) == CLOUD
  {
    forall j: nat | j < |q.local| ensures PassedAt(q, full, j) {
      PassedBefore(q, records, verdicts, skipped, full, |q.local|, j);
    }
    PassedOverRoute(q, m, text, full, 0, |q.local|);
  }

  /** Offline, on a recording that includes what the verdicts rest on, the simulator names the route the run took. */
  lemma SimulatorPredictsRun(q: Query, m: Measures, text: string, models: set<string>, records: seq<Record>,
                             verdicts: seq<Verdict>, skipped: seq<string>, full: map<string, Tuning.Evidence>,
                             prof: Tuning.Profile, criticMin: real, tokenMax: real, minTokens: nat, route: string)
    requires Distinct(q.local) && ByPolicy(q, m, text) && ValidPolicy(q.policy) && ValidMeasures(m) && CLOUD in models
    requires q.local == Locals(Available(models)) && q.policy.rules == DefaultRules(criticMin, tokenMax, minTokens)
    requires AllSourced(q, records, verdicts)
    requires FirstTrusted(q, verdicts, skipped, route) || (route == CLOUD && NobodyTrusted(q, verdicts, skipped))
    requires Tuning.Judged(q.local, full) && Holds(full, verdicts)
    requires Tuning.Records(prof, q.policy, m, q.local, text, full)
    requires Tuning.AllClear(q.policy, m, q.local, text, full)
    ensures Tuning.Runnable(Tuning.Mirror(q.policy, criticMin, tokenMax, minTokens), prof)
    ensures Tuning.SimRoute(Tuning.Mirror(q.policy, criticMin, tokenMax, minTokens), prof) == route
  {
    Tuning.SimulatorRefinesRouter(q.policy, m, models, text, full, prof, criticMin, tokenMax, minTokens);
    if FirstTrusted(q, verdicts, skipped, route) {
      TrustedIsLiveRoute(q, m, text, records, verdicts, skipped, full, route);
    } else {
      NobodyTrustedIsCloud(q, m, text, records, verdicts, skipped, full);
    }
  }
}
