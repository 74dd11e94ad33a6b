/**
 Going through the local tiers one by one until one is trusted: what such a scan leaves, whatever the single moves are.
 A move is given by the tier's position and the number of calls made before it.
 */
module Scans {
  import opened Json
  import Tuning
  import Scheduler

  type Record = Scheduler.Record

  datatype Verdict = Verdict(tier: string, evidence: Tuning.Evidence, escalate: bool)

  /** A tier is skipped, breaks off the run, or is judged. */
  datatype Move = Skip | Broke(calls: seq<Record>) | Judged(calls: seq<Record>, verdict: Verdict)

  type Moves = (nat, nat) -> Move

  /** A verdict on the tier at this position, whose turn began with the n-th call. */
  datatype Mark = Mark(at: nat, n: nat, verdict: Verdict)

  /** What a scan leaves: calls, verdicts, skipped positions, the trusted position, and whether it broke off. */
  datatype Asked = Asked(calls: seq<Record>, marks: seq<Mark>, skips: seq<nat>, trusted: Option<nat>, aborted: bool)

  const NOTHING := Asked([], [], [], None, false)

  /** The positions from i to the end, if n calls were made before. */
  function Scan(move: Moves, len: nat, i: nat, n: nat): Asked
    requires i <= len
    decreases len - i
  {
    if i == len then NOTHING
    else
      match move(i, n)
      case Skip => Join(Skipping(i), Scan(move, len, i + 1, n))
      case Broke(calls) => NOTHING.(calls := calls, aborted := true)
      case Judged(calls, v) =>
        if v.escalate then Join(Judging(i, n, calls, v), Scan(move, len, i + 1, n + |calls|))
        else Judging(i, n, calls, v).(trusted := Some(i))
  }

  function Skipping(i: nat): Asked {
    NOTHING.(skips := [i])
  }

  function Judging(i: nat, n: nat, calls: seq<Record>, v: Verdict): Asked {
    NOTHING.(calls := calls, marks := [Mark(i, n, v)])
  }

  /** One part after the other; the second part's ending counts. */
  function Join(a: Asked, b: Asked): Asked {
    Asked(a.calls + b.calls, a.marks + b.marks, a.skips + b.skips, b.trusted, b.aborted)
  }

  lemma JoinInTurn(a: Asked, b: Asked, c: Asked)
    ensures Join(Join(a, b), c) == Join(a, Join(b, c))
  {
    assert (a.calls + b.calls) + c.calls == a.calls + (b.calls + c.calls);
    assert (a.marks + b.marks) + c.marks == a.marks + (b.marks + c.marks);
    assert (a.skips + b.skips) + c.skips == a.skips + (b.skips + c.skips);
  }

  lemma JoinNothing(a: Asked)
    ensures Join(NOTHING, a) == a
  {
    assert [] + a.calls == a.calls && [] + a.marks == a.marks && [] + a.skips == a.skips;
  }

  /** The positions below i were skipped or not trusted, which left `done`. */
  ghost predicate ScannedTo(move: Moves, len: nat, n: nat, i: nat, done: Asked) {
    && i <= len && done.trusted.None? && !done.aborted
    && Scan(move, len, 0, n) == Join(done, Scan(move, len, i, n + |done.calls|))
  }

  lemma ScanStarts(move: Moves, len: nat, n: nat)
    ensures ScannedTo(move, len, n, 0, NOTHING)
  {
    JoinNothing(Scan(move, len, 0, n));
  }

  lemma ScanEnds(move: Moves, len: nat, n: nat, done: Asked)
    requires ScannedTo(move, len, n, len, done)
    ensures Scan(move, len, 0, n) == done
  {
    assert done.calls + [] == done.calls && done.marks + [] == done.marks && done.skips + [] == done.skips;
  }

  lemma ScanSkips(move: Moves, len: nat, n: nat, i: nat, done: Asked)
    requires ScannedTo(move, len, n, i, done) && i < len && move(i, n + |done.calls|).Skip?
    ensures ScannedTo(move, len, n, i + 1, Join(done, Skipping(i)))
  {
    assert done.calls + [] == done.calls;
    JoinInTurn(done, Skipping(i), Scan(move, len, i + 1, n + |done.calls|));
  }

  lemma ScanJudges(move: Moves, len: nat, n: nat, i: nat, done: Asked, calls: seq<Record>, v: Verdict)
    requires ScannedTo(move, len, n, i, done) && i < len && move(i, n + |done.calls|) == Judged(calls, v)
    ensures var next := Join(done, Judging(i, n + |done.calls|, calls, v));
      if v.escalate then ScannedTo(move, len, n, i + 1, next) else Scan(move, len, 0, n) == next.(trusted := Some(i))
  {
    var m := n + |done.calls|;
    if v.escalate {
      JoinInTurn(done, Judging(i, m, calls, v), Scan(move, len, i + 1, m + |calls|));
    }
  }

  lemma ScanBreaks(move: Moves, len: nat, n: nat, i: nat, done: Asked, calls: seq<Record>)
    requires ScannedTo(move, len, n, i, done) && i < len && move(i, n + |done.calls|) == Broke(calls)
    ensures Scan(move, len, 0, n) == Join(done, NOTHING.(calls := calls, aborted := true))
  {
  }

  // ---- Every verdict is on record ----

  /** These calls are on record from the n-th on. */
  ghost predicate Logged(records: seq<Record>, n: nat, calls: seq<Record>) {
    n + |calls| <= |records| && records[n..n + |calls|] == calls
  }

  lemma LoggedSplit(records: seq<Record>, n: nat, a: seq<Record>, b: seq<Record>)
    requires Logged(records, n, a + b)
    ensures Logged(records, n, a) && Logged(records, n + |a|, b)
  {
    var whole := records[n..n + |a + b|];
    assert records[n..n + |a|] == whole[..|a|] && records[n + |a|..n + |a| + |b|] == whole[|a|..];
  }

  lemma LoggedStays(records: seq<Record>, more: seq<Record>, n: nat, calls: seq<Record>)
    requires Logged(records, n, calls) && records <= more
    ensures Logged(more, n, calls)
  {
    assert more[n..n + |calls|] == records[n..n + |calls|];
  }

  /** The mark is the move it stands for, and the move's calls are on record. */
  ghost predicate Backed(move: Moves, records: seq<Record>, mark: Mark) {
    var made := move(mark.at, mark.n);
    made.Judged? && made.verdict == mark.verdict && Logged(records, mark.n, made.calls)
  }

  ghost predicate AllBacked(move: Moves, records: seq<Record>, marks: seq<Mark>) {
    forall k :: 0 <= k < |marks| ==> Backed(move, records, marks[k])
  }

  lemma BackedFirst(move: Moves, records: seq<Record>, first: Mark, rest: seq<Mark>)
    requires Backed(move, records, first) && AllBacked(move, records, rest)
    ensures AllBacked(move, records, [first] + rest)
  {
  }

  lemma {:induction false} MarksAreBacked(move: Moves, len: nat, i: nat, n: nat, records: seq<Record>)
    requires i <= len && Logged(records, n, Scan(move, len, i, n).calls)
    ensures AllBacked(move, records, Scan(move, len, i, n).marks)
    decreases len - i
  {
    if i < len {
      match move(i, n)
      case Skip =>
        var rest := Scan(move, len, i + 1, n);
        assert [] + rest.calls == rest.calls && [] + rest.marks == rest.marks;
        MarksAreBacked(move, len, i + 1, n, records);
      case Broke(_) =>
      case Judged(calls, v) =>
        if v.escalate {
          var rest := Scan(move, len, i + 1, n + |calls|);
          LoggedSplit(records, n, calls, rest.calls);
          MarksAreBacked(move, len, i + 1, n + |calls|, records);
          BackedFirst(move, records, Mark(i, n, v), rest.marks);
        }
    }
  }

  // ---- Which positions were judged and which skipped ----

  /** Where the scan stopped: after the trusted position, or at the end. */
  function Stop(a: Asked, len: nat): nat {
    if a.trusted.Some? then a.trusted.value + 1 else len
  }

  function Places(marks: seq<Mark>): seq<nat> {
    seq(|marks|, k requires 0 <= k < |marks| => marks[k].at)
  }

  /** The positions from i to stop that are skipped, or those that are not, in order. */
  function Sieve(skip: nat -> bool, i: nat, stop: nat, wanted: bool): seq<nat>
    requires i <= stop
    decreases stop - i
  {
    if i == stop then [] else (if skip(i) == wanted then [i] else []) + Sieve(skip, i + 1, stop, wanted)
  }

  /** The moves skip exactly these positions. */
  ghost predicate SkipsBy(move: Moves, skip: nat -> bool) {
    forall i, n :: move(i, n).Skip? <==> skip(i)
  }

  lemma {:induction false} TrustedWithin(move: Moves, len: nat, i: nat, n: nat)
    requires i <= len
    ensures var a := Scan(move, len, i, n); a.trusted.Some? ==> i <= a.trusted.value < len && !a.aborted
    decreases len - i
  {
    if i < len {
      match move(i, n)
      case Skip => TrustedWithin(move, len, i + 1, n);
      case Broke(_) =>
      case Judged(calls, _) => TrustedWithin(move, len, i + 1, n + |calls|);
    }
  }

  /** Of the positions from i to stop, exactly those to be skipped were skipped and the others judged, in order. */
  ghost predicate Exact(a: Asked, skip: nat -> bool, i: nat, stop: nat) {
    i <= stop && a.skips == Sieve(skip, i, stop, true) && Places(a.marks) == Sieve(skip, i, stop, false)
  }

  lemma ExactSkip(rest: Asked, skip: nat -> bool, i: nat, stop: nat)
    requires skip(i) && Exact(rest, skip, i + 1, stop)
    ensures Exact(Join(Skipping(i), rest), skip, i, stop)
  {
    assert [] + rest.marks == rest.marks;
  }

  lemma ExactJudge(rest: Asked, skip: nat -> bool, i: nat, stop: nat, n: nat, calls: seq<Record>, v: Verdict)
    requires !skip(i) && Exact(rest, skip, i + 1, stop)
    ensures Exact(Join(Judging(i, n, calls, v), rest), skip, i, stop)
  {
    PlacesFirst(Mark(i, n, v), rest.marks);
    assert [] + rest.skips == rest.skips;
  }

  lemma ExactLast(skip: nat -> bool, i: nat, n: nat, calls: seq<Record>, v: Verdict)
    requires !skip(i)
    ensures Exact(Judging(i, n, calls, v), skip, i, i + 1)
  {
    assert Sieve(skip, i + 1, i + 1, true) == [] == Sieve(skip, i + 1, i + 1, false);
  }

  /** A scan that does not break off skips and judges, in order, exactly the positions up to where it stops. */
  lemma {:induction false} ListsAreExact(move: Moves, skip: nat -> bool, len: nat, i: nat, n: nat)
    requires i <= len && SkipsBy(move, skip) && !Scan(move, len, i, n).aborted
    ensures Exact(Scan(move, len, i, n), skip, i, Stop(Scan(move, len, i, n), len))
    decreases len - i
  {
    if i < len {
      match move(i, n)
      case Skip =>
        ListsAreExact(move, skip, len, i + 1, n);
        ExactSkip(Scan(move, len, i + 1, n), skip, i, Stop(Scan(move, len, i + 1, n), len));
      case Judged(calls, v) =>
        if v.escalate {
          var rest := Scan(move, len, i + 1, n + |calls|);
          ListsAreExact(move, skip, len, i + 1, n + |calls|);
          ExactJudge(rest, skip, i, Stop(rest, len), n, calls, v);
        } else {
          ExactLast(skip, i, n, calls, v);
        }
    }
  }

  lemma PlacesFirst(first: Mark, rest: seq<Mark>)
    ensures Places([first] + rest) == [first.at] + Places(rest)
  {
  }

  // ---- How it ends ----

  /** Every verdict escalates, except that of the trusted position, which comes last. */
  ghost predicate EndsWell(a: Asked) {
    match a.trusted
    case None => forall k :: 0 <= k < |a.marks| ==> a.marks[k].verdict.escalate
    case Some(t) =>
      && a.marks != [] && a.marks[|a.marks| - 1].at == t && !a.marks[|a.marks| - 1].verdict.escalate
      && forall k :: 0 <= k < |a.marks| - 1 ==> a.marks[k].verdict.escalate
  }

  lemma EndsWellFirst(first: Asked, rest: Asked)
    requires |first.marks| <= 1 && (forall k :: 0 <= k < |first.marks| ==> first.marks[k].verdict.escalate) && EndsWell(rest)
    ensures EndsWell(Join(first, rest))
  {
    var all := first.marks + rest.marks;
    assert forall k :: 0 <= k < |rest.marks| ==> all[|first.marks| + k] == rest.marks[k];
    forall k | 0 <= k < |all| - (if rest.trusted.Some? then 1 else 0) ensures all[k].verdict.escalate {
      if k >= |first.marks| {
        assert all[k] == rest.marks[k - |first.marks|];
      }
    }
  }

  lemma {:induction false} ScanEndsWell(move: Moves, len: nat, i: nat, n: nat)
    requires i <= len
    ensures EndsWell(Scan(move, len, i, n))
    decreases len - i
  {
    if i < len {
      match move(i, n)
      case Skip =>
        ScanEndsWell(move, len, i + 1, n);
        EndsWellFirst(Skipping(i), Scan(move, len, i + 1, n));
      case Broke(_) =>
      case Judged(calls, v) =>
        if v.escalate {
          ScanEndsWell(move, len, i + 1, n + |calls|);
          EndsWellFirst(Judging(i, n, calls, v), Scan(move, len, i + 1, n + |calls|));
        }
    }
  }

  // ---- How many calls ----

  /** a * b, in steps. */
  function Times(a: nat, b: nat): nat {
    if a == 0 then 0 else Times(a - 1, b) + b
  }

  lemma {:induction false} TimesIsProduct(a: nat, b: nat)
    ensures Times(a, b) == a * b
  {
    if a > 0 {
      TimesIsProduct(a - 1, b);
    }
  }

  lemma {:induction false} TimesMonotone(a: nat, b: nat, c: nat)
    requires a <= b
    ensures Times(a, c) <= Times(b, c)
  {
    if a < b {
      TimesMonotone(a, b - 1, c);
    }
  }

  function CallsOf(m: Move): seq<Record> {
    match m
    case Skip => []
    case Broke(calls) => calls
    case Judged(calls, _) => calls
  }

  lemma {:induction false} ScanIsShort(move: Moves, len: nat, i: nat, n: nat, most: nat)
    requires i <= len && forall j, k :: |CallsOf(move(j, k))| <= most
    ensures |Scan(move, len, i, n).calls| <= Times(len - i, most)
    decreases len - i
  {
    if i < len {
      assert |CallsOf(move(i, n))| <= most;
      match move(i, n)
      case Skip => ScanIsShort(move, len, i + 1, n, most);
      case Broke(_) => TimesMonotone(1, len - i, most);
      case Judged(calls, _) =>
        ScanIsShort(move, len, i + 1, n + |calls|, most);
        TimesMonotone(1, len - i, most);
    }
  }

  // ---- Whom the calls go to ----

  ghost predicate NoneTo(tier: string, calls: seq<Record>) {
    forall k :: 0 <= k < |calls| ==> calls[k].tier != tier
  }

  /** A tier that no move calls is never called. */
  lemma {:induction false} ScanSpares(move: Moves, len: nat, i: nat, n: nat, tier: string)
    requires i <= len && forall j, k :: NoneTo(tier, CallsOf(move(j, k)))
    ensures NoneTo(tier, Scan(move, len, i, n).calls)
    decreases len - i
  {
    if i < len {
      assert NoneTo(tier, CallsOf(move(i, n)));
      match move(i, n)
      case Skip => ScanSpares(move, len, i + 1, n, tier);
      case Broke(_) =>
      case Judged(calls, _) => ScanSpares(move, len, i + 1, n + |calls|, tier);
    }
  }
}
