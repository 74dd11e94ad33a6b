/** The chat stream of a live run: work inside think blocks, JSON inside fences, the answer outside. */
module Stream {
  import opened Json

  /** A chunk a model wrote, with the step that wrote it. */
  datatype Delta = Delta(operation: string, thinking: bool, model: string, step: string, text: string)

  /** How a run ends. */
  datatype End = Failed(message: string) | Done(content: string, summary: string)

  function HeadingOf(d: Delta): string {
    d.model + " \U{b7} " + d.step
  }

  predicate IsAnswer(d: Delta) {
    (d.operation == "synthesize" || d.operation == "answer") && !d.thinking
  }

  // ---- The output as marker and text tokens ----

  datatype Piece = ThinkOpen | ThinkClose | FenceOpen | FenceClose | Heading(heading: string, first: bool) | Text(text: string)

  function Render(p: Piece): string {
    match p
    case ThinkOpen => "<think>"
    case ThinkClose => "</think>\n\n"
    case FenceOpen => "```json\n"
    case FenceClose => "\n```\n"
    case Heading(h, first) => (if first then "" else "\n\n") + "**" + h + "**\n"
    case Text(s) => s
  }

  function Page(out: seq<Piece>): string {
    if out == [] then "" else Page(out[..|out| - 1]) + Render(out[|out| - 1])
  }

  /** The page is written piece by piece, each after the last. */
  lemma {:induction false} PageJoins(a: seq<Piece>, b: seq<Piece>)
    ensures Page(a + b) == Page(a) + Page(b)
  {
    if b == [] {
      assert a + b == a;
    } else {
      PageJoins(a, b[..|b| - 1]);
      assert (a + b)[..|a + b| - 1] == a + b[..|b| - 1];
    }
  }

  /** What each token adds to the page: the tags and fences that the chat interface looks for, and texts as they are. */
  lemma PageNext(out: seq<Piece>, p: Piece)
    ensures Page(out + [p]) == Page(out) + match p
      case ThinkOpen => "<think>"
      case ThinkClose => "</think>\n\n"
      case FenceOpen => "```json\n"
      case FenceClose => "\n```\n"
      case Heading(heading, first) => if first then "**" + heading + "**\n" else "\n\n**" + heading + "**\n"
      case Text(text) => text
  {
    assert (out + [p])[..|out|] == out;
    if p.Heading? {
      assert "\n\n" + "**" == "\n\n**";
      assert "" + "**" == "**";
    }
  }

  // ---- A reader of the output, independent of how it is written ----

  /** Where a reader is: outside any block, in the prose of a think block, or in a fence inside one. */
  datatype Mode = Outside | Prose | Fenced

  datatype Seen = Seen(mode: Mode, heading: Option<string>, text: string)

  datatype Reader = Reader(mode: Mode, heading: Option<string>, seen: seq<Seen>)

  /** One token read; nothing for a token that is out of place. */
  function ReadOne(r: Reader, p: Piece): Option<Reader> {
    match (p, r.mode)
    case (ThinkOpen, Outside) => Some(r.(mode := Prose))
    case (ThinkClose, Prose) => Some(r.(mode := Outside))
    case (FenceOpen, Prose) => Some(r.(mode := Fenced))
    case (FenceClose, Fenced) => Some(r.(mode := Prose))
    case (Heading(h, first), Prose) => if first == r.heading.None? then Some(r.(heading := Some(h))) else None
    case (Text(s), m) => Some(r.(seen := r.seen + [Seen(m, if m.Outside? then None else r.heading, s)]))
    case (_, _) => None
  }

  function Read(out: seq<Piece>): Option<Reader> {
    if out == [] then Some(Reader(Outside, None, []))
    else
      var before := Read(out[..|out| - 1]);
      if before.None? then None else ReadOne(before.value, out[|out| - 1])
  }

  lemma ReadNext(out: seq<Piece>, p: Piece)
    ensures Read(out + [p]) == if Read(out).None? then None else ReadOne(Read(out).value, p)
  {
    assert (out + [p])[..|out|] == out;
  }

  function Count(out: seq<Piece>, p: Piece): nat {
    if out == [] then 0 else Count(out[..|out| - 1], p) + if out[|out| - 1] == p then 1 else 0
  }

  /** Readable output is balanced: at most one block and one fence are open, and a fence only inside a block. */
  lemma {:induction false} ReadableIsBalanced(out: seq<Piece>)
    requires Read(out).Some?
    ensures var r := Read(out).value;
      && Count(out, ThinkOpen) == Count(out, ThinkClose) + (if r.mode.Outside? then 0 else 1)
      && Count(out, FenceOpen) == Count(out, FenceClose) + (if r.mode.Fenced? then 1 else 0)
  {
    if out != [] {
      ReadableIsBalanced(out[..|out| - 1]);
    }
  }

  /** Every prefix of a readable output is readable, so the balance holds all along. */
  lemma {:induction false} PrefixReadable(out: seq<Piece>, n: nat)
    requires Read(out).Some? && n <= |out|
    ensures Read(out[..n]).Some?
  {
    if n == |out| {
      assert out[..n] == out;
    } else {
      PrefixReadable(out[..|out| - 1], n);
      assert out[..|out| - 1][..n] == out[..n];
    }
  }

  lemma BalancedThroughout(out: seq<Piece>, n: nat)
    requires Read(out).Some? && n <= |out|
    ensures var think := Count(out[..n], ThinkOpen) - Count(out[..n], ThinkClose);
      var fence := Count(out[..n], FenceOpen) - Count(out[..n], FenceClose);
      0 <= fence <= think <= 1
  {
    PrefixReadable(out, n);
    ReadableIsBalanced(out[..n]);
  }

  /** How many headings, fences and think blocks the output opens. */
  datatype Marks = Marks(headings: nat, fences: nat, blocks: nat)

  function MarksIn(out: seq<Piece>): Marks {
    if out == [] then Marks(0, 0, 0) else MarksWith(MarksIn(out[..|out| - 1]), out[|out| - 1])
  }

  function MarksWith(m: Marks, p: Piece): Marks {
    match p
    case Heading(_, _) => m.(headings := m.headings + 1)
    case FenceOpen => m.(fences := m.fences + 1)
    case ThinkOpen => m.(blocks := m.blocks + 1)
    case _ => m
  }

  // ---- What the reader should see of the chunks ----

  /** An answer belongs outside, reasoning in prose, and any other text is JSON for a fence. */
  function Home(d: Delta): Mode {
    if IsAnswer(d) then Outside else if d.thinking then Prose else Fenced
  }

  function TrimNewlines(s: string): string {
    if s != "" && s[0] == '\n' then TrimNewlines(s[1..]) else s
  }

  /** The fence of the last chunk is still the right one for this chunk. */
  predicate SameFence(past: seq<Delta>, d: Delta) {
    past != [] && Home(past[|past| - 1]).Fenced? && Home(d).Fenced? && HeadingOf(past[|past| - 1]) == HeadingOf(d)
  }

  /** Only blank text was written since a fence last opened, this chunk's own fence included. */
  predicate FreshFor(past: seq<Delta>, d: Delta)
    decreases |past|, 1
  {
    FreshAfter(past) || (Home(d).Fenced? && !SameFence(past, d))
  }

  predicate FreshAfter(past: seq<Delta>)
    decreases |past|, 0
  {
    if past == [] then false
    else
      var before, d := past[..|past| - 1], past[|past| - 1];
      if IsAnswer(d) then FreshAfter(before) else FreshFor(before, d) && Blank(TrimNewlines(d.text))
  }

  function Kept(past: seq<Delta>, d: Delta): string {
    if !IsAnswer(d) && FreshFor(past, d) then TrimNewlines(d.text) else d.text
  }

  /** Every chunk where it belongs, under its own step's heading. */
  function Expected(past: seq<Delta>): (seen: seq<Seen>)
    ensures |seen| == |past|
  {
    if past == [] then []
    else
      var before, d := past[..|past| - 1], past[|past| - 1];
      Expected(before) + [Seen(Home(d), if IsAnswer(d) then None else Some(HeadingOf(d)), Kept(before, d))]
  }

  /** The heading in force: that of the last step chunk. */
  function LastHeading(past: seq<Delta>): Option<string> {
    if past == [] then None
    else if IsAnswer(past[|past| - 1]) then LastHeading(past[..|past| - 1])
    else Some(HeadingOf(past[|past| - 1]))
  }

  /** One heading for each change of step, one fence for each opening of one, one block for each stretch without answers. */
  function MarksFor(past: seq<Delta>): Marks {
    if past == [] then Marks(0, 0, 0)
    else
      var before, d := past[..|past| - 1], past[|past| - 1];
      if IsAnswer(d) then MarksFor(before) else Grown(MarksFor(before), NewHeading(before, d), NewFence(before, d), NewBlock(before))
  }

  predicate NewHeading(past: seq<Delta>, d: Delta) {
    LastHeading(past) != Some(HeadingOf(d))
  }

  predicate NewFence(past: seq<Delta>, d: Delta) {
    Home(d).Fenced? && !SameFence(past, d)
  }

  predicate NewBlock(past: seq<Delta>) {
    past == [] || IsAnswer(past[|past| - 1])
  }

  lemma MarksNext(past: seq<Delta>, d: Delta)
    ensures MarksFor(past + [d]) ==
      if IsAnswer(d) then MarksFor(past) else Grown(MarksFor(past), NewHeading(past, d), NewFence(past, d), NewBlock(past))
  {
    assert (past + [d])[..|past|] == past;
  }

  function Grown(m: Marks, heading: bool, fence: bool, block: bool): Marks {
    Marks(m.headings + (if heading then 1 else 0), m.fences + (if fence then 1 else 0), m.blocks + (if block then 1 else 0))
  }

  predicate Answered(past: seq<Delta>) {
    exists i :: 0 <= i < |past| && IsAnswer(past[i])
  }

  function WithoutNewlines(s: string): string {
    if s == "" then "" else CharKept(s[0]) + WithoutNewlines(s[1..])
  }

  function CharKept(c: char): string {
    if c == '\n' then "" else [c]
  }

  lemma {:induction false} TrimKeepsText(s: string)
    ensures WithoutNewlines(TrimNewlines(s)) == WithoutNewlines(s)
    ensures |TrimNewlines(s)| <= |s|
  {
    if s != "" && s[0] == '\n' {
      TrimKeepsText(s[1..]);
    }
  }

  /** Only newlines go, and only from the front. */
  lemma {:induction false} TrimTakesNewlines(s: string)
    ensures |TrimNewlines(s)| <= |s| && TrimNewlines(s) == s[|s| - |TrimNewlines(s)|..]
    ensures forall i :: 0 <= i < |s| - |TrimNewlines(s)| ==> s[i] == '\n'
  {
    if s != "" && s[0] == '\n' {
      TrimTakesNewlines(s[1..]);
    }
  }

  // ---- Exactly which chunks are trimmed ----

  /** Chunk i opened a fence: it is JSON, and no fence of its own step was open. */
  predicate OpensFence(past: seq<Delta>, i: nat)
    requires i < |past|
  {
    Home(past[i]).Fenced? && !SameFence(past[..i], past[i])
  }

  /** Every chunk from i on that is not an answer is blank. */
  predicate BlankFrom(past: seq<Delta>, i: nat) {
    forall j :: i <= j < |past| && !IsAnswer(past[j]) ==> Blank(past[j].text)
  }

  /** Some fence was opened since which only blank text came, answers aside. */
  predicate BlankSinceFence(past: seq<Delta>) {
    exists i :: 0 <= i < |past| && OpensFence(past, i) && BlankFrom(past, i)
  }

  lemma {:induction false} TrimIsBlank(s: string)
    ensures Blank(TrimNewlines(s)) <==> Blank(s)
  {
    if s != "" && s[0] == '\n' {
      TrimIsBlank(s[1..]);
      assert IsSpace('\n');
      assert forall i :: 1 <= i < |s| ==> s[i] == s[1..][i - 1];
    }
  }

  lemma BlankSinceNext(past: seq<Delta>, d: Delta)
    ensures BlankSinceFence(past + [d]) <==>
      if IsAnswer(d) then BlankSinceFence(past)
      else Blank(d.text) && (BlankSinceFence(past) || (Home(d).Fenced? && !SameFence(past, d)))
  {
    var now := past + [d];
    assert now[..|past|] == past;
    forall i | 0 <= i < |past| ensures OpensFence(now, i) == OpensFence(past, i) {
      assert now[..i] == past[..i];
    }
    forall i | 0 <= i <= |past|
      ensures BlankFrom(now, i) <==> BlankFrom(past, i) && (IsAnswer(d) || Blank(d.text))
    {
      assert now[|past|] == d;
      assert forall j :: 0 <= j < |past| ==> now[j] == past[j];
    }
    if BlankSinceFence(past) {
      var i :| 0 <= i < |past| && OpensFence(past, i) && BlankFrom(past, i);
      assert OpensFence(now, i) && (IsAnswer(d) || Blank(d.text) ==> BlankFrom(now, i));
    }
    assert OpensFence(now, |past|) <==> Home(d).Fenced? && !SameFence(past, d);
  }

  /** What the fresh flag means. */
  lemma {:induction false} FreshMeansBlankSinceFence(past: seq<Delta>)
    ensures FreshAfter(past) <==> BlankSinceFence(past)
  {
    if past != [] {
      var before, d := past[..|past| - 1], past[|past| - 1];
      FreshMeansBlankSinceFence(before);
      assert past == before + [d];
      BlankSinceNext(before, d);
      TrimIsBlank(d.text);
    }
  }

  lemma TrimIdle(s: string)
    ensures TrimNewlines(s) == s <==> s == "" || s[0] != '\n'
  {
    if s != "" {
      TrimKeepsText(s[1..]);
    }
  }

  /** Reasoning is kept whole exactly if it does not begin with a newline, or something came since the last opened fence. */
  lemma ReasoningKeptIff(past: seq<Delta>, d: Delta)
    requires Home(d).Prose?
    ensures Kept(past, d) == d.text <==> d.text == "" || d.text[0] != '\n' || !BlankSinceFence(past)
  {
    FreshMeansBlankSinceFence(past);
    TrimIdle(d.text);
  }

  /** JSON loses its leading newlines exactly while nothing but blanks has come since a fence opened, its own included. */
  lemma JsonKeptIff(past: seq<Delta>, d: Delta)
    requires Home(d).Fenced?
    ensures Kept(past, d) == d.text <==>
      d.text == "" || d.text[0] != '\n' || (SameFence(past, d) && !BlankSinceFence(past))
  {
    FreshMeansBlankSinceFence(past);
    TrimIdle(d.text);
  }

  /** Chunk i is trimmed: it is no answer, and only blanks came since a fence opened, one of its own included. */
  predicate Trimmed(past: seq<Delta>, i: nat)
    requires i < |past|
  {
    !IsAnswer(past[i]) && (BlankSinceFence(past[..i]) || OpensFence(past, i))
  }

  /**
   What Expected promises of chunk i, whatever came before: its place, its heading, and its text, without leading
   newlines exactly if it is trimmed.
   */
  lemma {:induction false} ChunkInItsPlace(past: seq<Delta>, i: nat)
    requires i < |past|
    ensures var d, seen := past[i], Expected(past)[i];
      && (if d.thinking then seen.mode == Prose && seen.heading == Some(d.model + " \U{b7} " + d.step)
          else if d.operation == "synthesize" || d.operation == "answer" then seen.mode == Outside && seen.heading == None
          else seen.mode == Fenced && seen.heading == Some(d.model + " \U{b7} " + d.step))
      && seen.text == (if Trimmed(past, i) then TrimNewlines(d.text) else d.text)
      && WithoutNewlines(seen.text) == WithoutNewlines(d.text)
  {
    var n := |past| - 1;
    if i == n {
      TrimKeepsText(past[i].text);
      FreshMeansBlankSinceFence(past[..n]);
    } else {
      ChunkInItsPlace(past[..n], i);
      assert past[..n][..i] == past[..i];
    }
  }

  function Texts(seen: seq<Seen>): string {
    if seen == [] then "" else Texts(seen[..|seen| - 1]) + seen[|seen| - 1].text
  }

  function Payload(past: seq<Delta>): string {
    if past == [] then "" else Payload(past[..|past| - 1]) + past[|past| - 1].text
  }

  lemma {:induction false} WithoutNewlinesJoins(a: string, b: string)
    ensures WithoutNewlines(a + b) == WithoutNewlines(a) + WithoutNewlines(b)
  {
    if a == "" {
      assert a + b == b;
    } else {
      WithoutNewlinesJoins(a[1..], b);
      assert (a + b)[1..] == a[1..] + b;
      assert CharKept(a[0]) + (WithoutNewlines(a[1..]) + WithoutNewlines(b)) == WithoutNewlines(a) + WithoutNewlines(b);
    }
  }

  /** Nothing but newlines is lost, and the order is kept. */
  lemma {:induction false} PayloadKept(past: seq<Delta>)
    ensures WithoutNewlines(Texts(Expected(past))) == WithoutNewlines(Payload(past))
  {
    if past != [] {
      var n := |past| - 1;
      var before, d := past[..n], past[n];
      PayloadKept(before);
      TrimKeepsText(d.text);
      assert Expected(past)[..n] == Expected(before);
      WithoutNewlinesJoins(Texts(Expected(before)), Kept(before, d));
      WithoutNewlinesJoins(Payload(before), d.text);
    }
  }

  /** The smallest case: reasoning right after a fence of blank text loses its leading newlines too. */
  lemma ReasoningTrimmedAfterBlankJson(json: Delta, reasoning: Delta)
    requires Home(json).Fenced? && Blank(json.text) && Home(reasoning).Prose?
    ensures BlankSinceFence([json]) && Kept([json], reasoning) == TrimNewlines(reasoning.text)
  {
    assert OpensFence([json], 0) && BlankFrom([json], 0);
    FreshMeansBlankSinceFence([json]);
  }

  // ---- The generator ----

  /** The generator's state between chunks. */
  datatype Flags = Flags(thinking: bool, answered: bool, heading: Option<string>, fenced: bool, isFresh: bool)

  /** What the state should be after these chunks. */
  ghost function FlagsAfter(past: seq<Delta>): Flags {
    var last := if past == [] then Outside else Home(past[|past| - 1]);
    Flags(!last.Outside?, Answered(past), LastHeading(past), last.Fenced?, FreshAfter(past))
  }

  class Streamer {
    var thinking: bool
    var answered: bool
    var heading: Option<string>
    var fenced: bool
    var isFresh: bool
    /** What the generator has yielded, as tokens. */
    var out: seq<Piece>
    ghost var past: seq<Delta>

    ghost predicate Reading(mode: Mode, seen: seq<Seen>)
      reads this
    {
      Read(out) == Some(Reader(mode, heading, seen))
    }

    ghost function Now(): Flags
      reads this
    {
      Flags(thinking, answered, heading, fenced, isFresh)
    }

    /** Between chunks the flags say where a reader of the output is, and what the past chunks were. */
    ghost predicate Valid()
      reads this
    {
      && Reading(Place(thinking, fenced), Expected(past)) && Now() == FlagsAfter(past)
      && MarksIn(out) == MarksFor(past)
    }

    constructor ()
      ensures Valid() && past == []
    {
      thinking, answered, heading, fenced, isFresh := false, false, None, false, false;
      out, past := [], [];
    }

    method Write(p: Piece)
      requires Read(out).Some?
      modifies this`out
      ensures out == old(out) + [p] && Read(out) == ReadOne(old(Read(out)).value, p)
      ensures MarksIn(out) == MarksWith(old(MarksIn(out)), p)
    {
      ReadNext(out, p);
      assert (out + [p])[..|out|] == out;
      out := out + [p];
    }

    method CloseFence(ghost seen: seq<Seen>)
      requires Reading(Place(true, fenced), seen)
      modifies this`fenced, this`out
      ensures !fenced && Reading(Prose, seen) && MarksIn(out) == old(MarksIn(out))
    {
      if fenced {
        fenced := false;
        Write(FenceClose);
      }
    }

    method CloseThinking(ghost seen: seq<Seen>)
      requires Reading(Place(thinking, fenced), seen) && (fenced ==> thinking)
      modifies this`thinking, this`fenced, this`out
      ensures !thinking && !fenced && Reading(Outside, seen) && MarksIn(out) == old(MarksIn(out))
    {
      if thinking {
        thinking := false;
        CloseFence(seen);
        Write(ThinkClose);
      }
    }

    method OpenStep(d: Delta, ghost seen: seq<Seen>)
      requires Reading(Place(true, fenced), seen) && !IsAnswer(d)
      modifies this`heading, this`fenced, this`isFresh, this`out
      ensures heading == Some(HeadingOf(d)) && fenced == Home(d).Fenced?
      ensures isFresh == (old(isFresh) || (fenced && !(old(fenced) && old(heading) == heading)))
      ensures Reading(Home(d), seen)
      ensures MarksIn(out) == Grown(old(MarksIn(out)), old(heading) != heading, fenced && !(old(fenced) && old(heading) == heading), false)
    {
      var h := HeadingOf(d);
      if heading != Some(h) {
        CloseFence(seen);
        Write(Heading(h, heading.None?));
        heading := Some(h);
      }
      if !d.thinking && !fenced {
        Write(FenceOpen);
        fenced, isFresh := true, true;
      } else if d.thinking && fenced {
        CloseFence(seen);
      }
    }

    /** An answer chunk goes outside, after the think block. */
    method ReceiveAnswer(d: Delta, ghost seen: seq<Seen>)
      requires Reading(Place(thinking, fenced), seen) && (fenced ==> thinking)
      modifies this`answered, this`thinking, this`fenced, this`out
      ensures Now() == old(Now()).(thinking := false, answered := true, fenced := false)
      ensures Reading(Outside, seen + [Seen(Outside, None, d.text)]) && MarksIn(out) == old(MarksIn(out))
    {
      answered := true;
      CloseThinking(seen);
      Write(Text(d.text));
    }

    /** Any other chunk goes inside, under its step's heading; leading newlines go while the fence is fresh. */
    method ReceiveStep(d: Delta, ghost seen: seq<Seen>) returns (ghost trimmed: bool)
      requires Reading(Place(thinking, fenced), seen) && (fenced ==> thinking) && !IsAnswer(d)
      modifies this`thinking, this`heading, this`fenced, this`isFresh, this`out
      ensures trimmed == (old(isFresh) || (fenced && !(old(fenced) && old(heading) == heading)))
      ensures Now() == Flags(true, old(answered), Some(HeadingOf(d)), Home(d).Fenced?, trimmed && Blank(TrimNewlines(d.text)))
      ensures Reading(Home(d), seen + [Seen(Home(d), heading, if trimmed then TrimNewlines(d.text) else d.text)])
      ensures MarksIn(out) == Grown(old(MarksIn(out)), old(heading) != heading,
        fenced && !(old(fenced) && old(heading) == heading), !old(thinking))
    {
      if !thinking {
        thinking := true;
        Write(ThinkOpen);
      }
      OpenStep(d, seen);
      trimmed := isFresh;
      var text := d.text;
      if isFresh {
        text := TrimNewlines(text);
        isFresh := Blank(text);
      }
      Write(Text(text));
    }

    /** One chunk of the queue. */
    method Receive(d: Delta)
      requires Valid()
      modifies this
      ensures Valid() && past == old(past) + [d]
    {
      NextSeen(past, d);
      NextFlags(past, d);
      MarksNext(past, d);
      if IsAnswer(d) {
        ReceiveAnswer(d, Expected(past));
      } else {
        ghost var trimmed := ReceiveStep(d, Expected(past));
        assert trimmed == FreshFor(past, d);
      }
      past := past + [d];
    }

    /** The last message of the queue. */
    method Finish(end: End)
      requires Valid()
      modifies this
      ensures past == old(past) && Reading(Outside, Expected(past) + Closing(past, end)) && heading == old(heading)
      ensures MarksIn(out) == old(MarksIn(out))
    {
      ghost var seen := Expected(past);
      CloseThinking(seen);
      match end
      case Failed(message) =>
        Write(Text(FAILED + message));
      case Done(content, summary) =>
        Write(Text(if answered then "" else content));
        Write(Text("\n\n---\n" + summary));
        assert seen + [Seen(Outside, None, if answered then "" else content)] + [Seen(Outside, None, "\n\n---\n" + summary)]
          == seen + Closing(past, end);
    }
  }

  function Place(thinking: bool, fenced: bool): Mode {
    if fenced then Fenced else if thinking then Prose else Outside
  }

  lemma NextSeen(past: seq<Delta>, d: Delta)
    ensures Expected(past + [d]) ==
      Expected(past) + [Seen(Home(d), if IsAnswer(d) then None else Some(HeadingOf(d)), Kept(past, d))]
  {
    assert (past + [d])[..|past|] == past;
  }

  lemma NextFlags(past: seq<Delta>, d: Delta)
    ensures FlagsAfter(past + [d]) ==
      if IsAnswer(d) then FlagsAfter(past).(thinking := false, answered := true, fenced := false)
      else Flags(true, Answered(past), Some(HeadingOf(d)), Home(d).Fenced?, FreshFor(past, d) && Blank(TrimNewlines(d.text)))
    ensures var sameFence := FlagsAfter(past).fenced && LastHeading(past) == Some(HeadingOf(d));
      IsAnswer(d) || FreshFor(past, d) == (FreshAfter(past) || (Home(d).Fenced? && !sameFence))
  {
    var now := past + [d];
    assert now[..|past|] == past && now[|past|] == d;
    if Answered(past) {
      var i :| 0 <= i < |past| && IsAnswer(past[i]);
      assert IsAnswer(now[i]);
    }
  }

  const FAILED := "**Relay stopped \U{2014} no complete answer.** "

  /** What follows the chunks: the failure, or the answer unless it was streamed, and the summary. */
  function Closing(past: seq<Delta>, end: End): seq<Seen> {
    match end
    case Failed(message) => [Seen(Outside, None, FAILED + message)]
    case Done(content, summary) =>
      [Seen(Outside, None, if Answered(past) then "" else content), Seen(Outside, None, "\n\n---\n" + summary)]
  }

  /** The answer closes the message unless it was streamed, and the summary follows; a failure says so. */
  lemma ClosingText(past: seq<Delta>, message: string, content: string, summary: string)
    ensures Closing(past, Failed(message)) == [Seen(Outside, None, "**Relay stopped \U{2014} no complete answer.** " + message)]
    ensures Texts(Closing(past, Done(content, summary))) ==
      (if exists i :: 0 <= i < |past| && IsAnswer(past[i]) then "" else content) + ("\n\n---\n" + summary)
    ensures forall i :: 0 <= i < |Closing(past, Done(content, summary))| ==> Closing(past, Done(content, summary))[i].mode.Outside?
  {
    var closing := Closing(past, Done(content, summary));
    assert closing[..1][..0] == [] && Texts(closing[..1]) == closing[0].text;
  }

  /**
   The whole stream. A reader can follow the tokens to the end, outside every block, and what it sees is every
   chunk in its place and then the closing text.
   */
  method StreamRelay(deltas: seq<Delta>, end: End) returns (out: seq<Piece>, page: string)
    ensures Read(out) == Some(Reader(Outside, LastHeading(deltas), Expected(deltas) + Closing(deltas, end)))
    ensures Count(out, ThinkOpen) == Count(out, ThinkClose) && Count(out, FenceOpen) == Count(out, FenceClose)
    ensures MarksIn(out) == MarksFor(deltas) && page == Page(out)
  {
    var stream := new Streamer();
    for i := 0 to |deltas|
      invariant fresh(stream) && stream.Valid() && stream.past == deltas[..i]
    {
      stream.Receive(deltas[i]);
      assert deltas[..i] + [deltas[i]] == deltas[..i + 1];
    }
    assert deltas[..|deltas|] == deltas;
    stream.Finish(end);
    out, page := stream.out, Page(stream.out);
    ReadableIsBalanced(out);
  }
}
