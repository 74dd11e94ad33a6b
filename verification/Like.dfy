/** The LIKE function that replaces SQLite's own, with its cache of compiled patterns. */
module Like {
  import opened Json

  const CACHE_LIMIT := 512

  /** The parts the compiler writes: `.*`, `.` and one quoted character. */
  datatype Atom = Any | One | Lit(c: char)

  /** What the cache keeps: nothing ever matches, or a regular expression. */
  datatype Compiled = Never | Regex(atoms: seq<Atom>)

  /** A pattern and its escape, both folded to lower case. */
  datatype Key = Key(pattern: string, escape: Option<string>)

  // ---- Regular expressions of this kind ----

  predicate Fits(a: Atom, piece: string) {
    match a
    case Any => true
    case One => |piece| == 1
    case Lit(c) => piece == [c]
  }

  function Join(pieces: seq<string>): string {
    if pieces == [] then "" else pieces[0] + Join(pieces[1..])
  }

  ghost predicate Splits(atoms: seq<Atom>, pieces: seq<string>, text: string) {
    |pieces| == |atoms| && Join(pieces) == text && forall i :: 0 <= i < |atoms| ==> Fits(atoms[i], pieces[i])
  }

  /** fullmatch with DOTALL: the whole text is cut into one piece per part. */
  ghost predicate FullMatches(atoms: seq<Atom>, text: string) {
    exists pieces :: Splits(atoms, pieces, text)
  }

  predicate FullMatch(atoms: seq<Atom>, text: string)
    decreases |atoms| + |text|
  {
    if atoms == [] then text == ""
    else if atoms[0].Any? && FullMatch(atoms[1..], text) then true
    else if text == "" then false
    else if atoms[0].Any? then FullMatch(atoms, text[1..])
    else Fits(atoms[0], text[..1]) && FullMatch(atoms[1..], text[1..])
  }

  lemma SplitsCons(a: Atom, piece: string, atoms: seq<Atom>, pieces: seq<string>, text: string)
    requires Fits(a, piece) && Splits(atoms, pieces, text)
    ensures Splits([a] + atoms, [piece] + pieces, piece + text)
  {
    assert ([piece] + pieces)[1..] == pieces;
  }

  lemma SplitsTail(atoms: seq<Atom>, pieces: seq<string>, text: string)
    requires Splits(atoms, pieces, text) && atoms != []
    ensures text == pieces[0] + Join(pieces[1..]) && Fits(atoms[0], pieces[0])
    ensures Splits(atoms[1..], pieces[1..], Join(pieces[1..]))
  {
  }

  /** A longer first piece for `.*` is as good. */
  lemma SplitsGrow(atoms: seq<Atom>, pieces: seq<string>, c: char, text: string)
    requires Splits(atoms, pieces, text) && atoms != [] && atoms[0].Any?
    ensures Splits(atoms, [[c] + pieces[0]] + pieces[1..], [c] + text)
  {
    var grown := [[c] + pieces[0]] + pieces[1..];
    assert grown[1..] == pieces[1..];
    assert [c] + pieces[0] + Join(pieces[1..]) == [c] + (pieces[0] + Join(pieces[1..]));
  }

  lemma {:induction false} MatchSplits(atoms: seq<Atom>, text: string)
    requires FullMatch(atoms, text)
    ensures FullMatches(atoms, text)
    decreases |atoms| + |text|
  {
    if atoms == [] {
      assert Splits(atoms, [], text);
    } else if atoms[0].Any? && FullMatch(atoms[1..], text) {
      MatchSplits(atoms[1..], text);
      var pieces :| Splits(atoms[1..], pieces, text);
      SplitsCons(atoms[0], "", atoms[1..], pieces, text);
      assert [atoms[0]] + atoms[1..] == atoms && "" + text == text;
    } else if atoms[0].Any? {
      MatchSplits(atoms, text[1..]);
      var pieces :| Splits(atoms, pieces, text[1..]);
      SplitsGrow(atoms, pieces, text[0], text[1..]);
      assert [text[0]] + text[1..] == text;
    } else {
      MatchSplits(atoms[1..], text[1..]);
      var pieces :| Splits(atoms[1..], pieces, text[1..]);
      SplitsCons(atoms[0], text[..1], atoms[1..], pieces, text[1..]);
      assert [atoms[0]] + atoms[1..] == atoms && text[..1] + text[1..] == text;
    }
  }

  lemma {:induction false} SplitsMatch(atoms: seq<Atom>, pieces: seq<string>, text: string)
    requires Splits(atoms, pieces, text)
    ensures FullMatch(atoms, text)
    decreases |atoms| + |text|
  {
    if atoms != [] {
      SplitsTail(atoms, pieces, text);
      var rest := Join(pieces[1..]);
      if !atoms[0].Any? {
        assert text[..1] == pieces[0] && text[1..] == rest;
        SplitsMatch(atoms[1..], pieces[1..], rest);
      } else if pieces[0] == "" {
        assert text == rest;
        SplitsMatch(atoms[1..], pieces[1..], rest);
      } else {
        SplitsShrink(atoms, pieces, text);
        SplitsMatch(atoms, [pieces[0][1..]] + pieces[1..], text[1..]);
      }
    }
  }

  lemma SplitsShrink(atoms: seq<Atom>, pieces: seq<string>, text: string)
    requires Splits(atoms, pieces, text) && atoms != [] && atoms[0].Any? && pieces[0] != ""
    ensures text != "" && Splits(atoms, [pieces[0][1..]] + pieces[1..], text[1..])
  {
    var shrunk := [pieces[0][1..]] + pieces[1..];
    assert shrunk[1..] == pieces[1..];
    assert text[1..] == pieces[0][1..] + Join(pieces[1..]);
  }

  /** The search and the meaning of the regular expression agree. */
  lemma FullMatchIff(atoms: seq<Atom>, text: string)
    ensures FullMatch(atoms, text) <==> FullMatches(atoms, text)
  {
    if FullMatch(atoms, text) {
      MatchSplits(atoms, text);
    }
    if FullMatches(atoms, text) {
      var pieces :| Splits(atoms, pieces, text);
      SplitsMatch(atoms, pieces, text);
    }
  }

  // ---- LIKE, directly ----

  /** An escape takes effect only if it is a single character. */
  predicate IsEscape(escape: Option<string>, c: char) {
    escape == Some([c])
  }

  /** `%` stands for any text, `_` for any character, an escaped character for itself; an escape needs one. */
  predicate DirectLike(pattern: string, escape: Option<string>, text: string)
    decreases |pattern| + |text|
  {
    if pattern == "" then text == ""
    else if IsEscape(escape, pattern[0]) then
      |pattern| >= 2 && text != "" && text[0] == pattern[1] && DirectLike(pattern[2..], escape, text[1..])
    else if pattern[0] == '%' then
      DirectLike(pattern[1..], escape, text) || (text != "" && DirectLike(pattern, escape, text[1..]))
    else
      text != "" && (pattern[0] == '_' || text[0] == pattern[0]) && DirectLike(pattern[1..], escape, text[1..])
  }

  function AtomOf(c: char): Atom {
    if c == '%' then Any else if c == '_' then One else Lit(c)
  }

  function Cons(a: Atom, rest: Compiled): Compiled {
    if rest.Never? then Never else Regex([a] + rest.atoms)
  }

  /** What compiling a pattern afresh gives. */
  function Fresh(pattern: string, escape: Option<string>): Compiled
    decreases |pattern|
  {
    if pattern == "" then Regex([])
    else if !IsEscape(escape, pattern[0]) then Cons(AtomOf(pattern[0]), Fresh(pattern[1..], escape))
    else if |pattern| == 1 then Never
    else Cons(Lit(pattern[1]), Fresh(pattern[2..], escape))
  }

  predicate Runs(compiled: Compiled, text: string) {
    compiled.Regex? && FullMatch(compiled.atoms, text)
  }

  lemma ConsRuns(a: Atom, rest: Compiled, text: string)
    ensures Runs(Cons(a, rest), text) <==>
      (a.Any? && (Runs(rest, text) || (text != "" && Runs(Cons(a, rest), text[1..])))) ||
      (!a.Any? && text != "" && Fits(a, text[..1]) && Runs(rest, text[1..]))
  {
    if rest.Regex? {
      assert ([a] + rest.atoms)[1..] == rest.atoms;
    }
  }

  /** Running the compiled pattern is LIKE. */
  lemma {:induction false} FreshIsLike(pattern: string, escape: Option<string>, text: string)
    ensures Runs(Fresh(pattern, escape), text) <==> DirectLike(pattern, escape, text)
    decreases |pattern| + |text|
  {
    if pattern != "" {
      if !IsEscape(escape, pattern[0]) {
        var rest := Fresh(pattern[1..], escape);
        ConsRuns(AtomOf(pattern[0]), rest, text);
        FreshIsLike(pattern[1..], escape, text);
        if text != "" {
          FreshIsLike(pattern, escape, text[1..]);
          FreshIsLike(pattern[1..], escape, text[1..]);
        }
      } else if |pattern| > 1 {
        ConsRuns(Lit(pattern[1]), Fresh(pattern[2..], escape), text);
        if text != "" {
          FreshIsLike(pattern[2..], escape, text[1..]);
        }
      }
    }
  }

  // ---- Dangling escapes ----

  /** How many escape characters the pattern ends in. */
  function TrailingEscapes(pattern: string, escape: Option<string>): nat {
    if pattern != "" && IsEscape(escape, pattern[|pattern| - 1]) then
      TrailingEscapes(pattern[..|pattern| - 1], escape) + 1
    else 0
  }

  predicate Dangles(pattern: string, escape: Option<string>) {
    TrailingEscapes(pattern, escape) % 2 == 1
  }

  /** Taking characters off the front leaves the trailing run alone, unless the run is all there is. */
  lemma {:induction false} TrailingAfter(pattern: string, escape: Option<string>, n: nat)
    requires n <= |pattern|
    ensures TrailingEscapes(pattern[n..], escape) ==
      if TrailingEscapes(pattern, escape) < |pattern| - n then TrailingEscapes(pattern, escape) else |pattern| - n
  {
    if n < |pattern| {
      var last := |pattern| - 1;
      assert pattern[n..][|pattern| - n - 1] == pattern[last];
      assert pattern[n..][..|pattern| - n - 1] == pattern[..last][n..];
      TrailingAfter(pattern[..last], escape, n);
    }
  }

  lemma {:induction false} WholeRun(pattern: string, escape: Option<string>)
    ensures TrailingEscapes(pattern, escape) <= |pattern|
    ensures TrailingEscapes(pattern, escape) == |pattern| ==> forall i :: 0 <= i < |pattern| ==> IsEscape(escape, pattern[i])
    ensures TrailingEscapes(pattern, escape) < |pattern| ==>
      !IsEscape(escape, pattern[|pattern| - 1 - TrailingEscapes(pattern, escape)])
  {
    if pattern != "" && IsEscape(escape, pattern[|pattern| - 1]) {
      WholeRun(pattern[..|pattern| - 1], escape);
    }
  }

  /** Compiling fails exactly for a pattern that ends in an odd number of escape characters. */
  lemma {:induction false} NeverIffDangles(pattern: string, escape: Option<string>)
    ensures Fresh(pattern, escape).Never? <==> Dangles(pattern, escape)
    decreases |pattern|
  {
    if pattern != "" {
      WholeRun(pattern, escape);
      if !IsEscape(escape, pattern[0]) {
        TrailingAfter(pattern, escape, 1);
        NeverIffDangles(pattern[1..], escape);
      } else if |pattern| == 1 {
        assert TrailingEscapes(pattern[..0], escape) == 0;
      } else {
        TrailingAfter(pattern, escape, 2);
        NeverIffDangles(pattern[2..], escape);
      }
    }
  }

  lemma DanglingNeverMatches(pattern: string, escape: Option<string>, text: string)
    requires Dangles(pattern, escape)
    ensures !DirectLike(pattern, escape, text)
  {
    NeverIffDangles(pattern, escape);
    FreshIsLike(pattern, escape, text);
  }

  /** Any other pattern matches exactly the texts that can be cut into pieces for its parts. */
  lemma LikeMeaning(pattern: string, escape: Option<string>, text: string)
    requires !Dangles(pattern, escape)
    ensures Fresh(pattern, escape).Regex?
    ensures DirectLike(pattern, escape, text) <==> FullMatches(Fresh(pattern, escape).atoms, text)
  {
    NeverIffDangles(pattern, escape);
    FreshIsLike(pattern, escape, text);
    FullMatchIff(Fresh(pattern, escape).atoms, text);
  }

  // ---- The memoised function ----

  function Append(atoms: seq<Atom>, rest: Compiled): Compiled {
    if rest.Never? then Never else Regex(atoms + rest.atoms)
  }

  lemma AppendCons(atoms: seq<Atom>, a: Atom, rest: Compiled)
    ensures Append(atoms, Cons(a, rest)) == Append(atoms + [a], rest)
  {
    if rest.Regex? {
      assert atoms + ([a] + rest.atoms) == (atoms + [a]) + rest.atoms;
    }
  }

  /** The compile loop. */
  method Compile(pattern: string, escape: Option<string>) returns (compiled: Compiled)
    ensures compiled == Fresh(pattern, escape)
  {
    var regex: seq<Atom> := [];
    var escaped := false;
    assert pattern[0..] == pattern;
    for i := 0 to |pattern|
      invariant escaped ==> i > 0 && IsEscape(escape, pattern[i - 1])
      invariant Fresh(pattern, escape) == Append(regex, Fresh(pattern[if escaped then i - 1 else i..], escape))
    {
      var c := pattern[i];
      ghost var left := pattern[if escaped then i - 1 else i..];
      if escape.Some? && escape.value != "" && !escaped && [c] == escape.value {
        escaped := true;
        continue;
      }
      var atom := if !escaped && c == '%' then Any else if !escaped && c == '_' then One else Lit(c);
      assert left[if escaped then 2 else 1..] == pattern[i + 1..];
      AppendCons(regex, atom, Fresh(pattern[i + 1..], escape));
      regex := regex + [atom];
      escaped := false;
    }
    return if escaped then Never else Regex(regex);
  }

  /** One call of the SQL function; a null argument is None. */
  datatype Query = Query(pattern: Option<string>, text: Option<string>, escape: Option<string>)

  function Folded(lower: string -> string, escape: Option<string>): Option<string> {
    if escape.Some? then Some(lower(escape.value)) else None
  }

  /** What a call should return: no cache, no regular expression. */
  function Expected(lower: string -> string, q: Query): Option<bool> {
    if q.pattern.None? || q.text.None? then None
    else Some(DirectLike(lower(q.pattern.value), Folded(lower, q.escape), lower(q.text.value)))
  }

  predicate SameFolded(lower: string -> string, a: Option<string>, b: Option<string>) {
    (a.None? <==> b.None?) && (a.Some? && b.Some? ==> lower(a.value) == lower(b.value))
  }

  /** Case makes no difference, neither in the pattern nor in the text nor in the escape; only null arguments give null. */
  lemma CaseMakesNoDifference(lower: string -> string, q: Query, r: Query)
    requires SameFolded(lower, q.pattern, r.pattern) && SameFolded(lower, q.text, r.text) && SameFolded(lower, q.escape, r.escape)
    ensures Expected(lower, q) == Expected(lower, r) && (Expected(lower, q).None? <==> q.pattern.None? || q.text.None?)
  {
  }

  function KeyOf(lower: string -> string, q: Query): Key
    requires q.pattern.Some?
  {
    Key(lower(q.pattern.value), Folded(lower, q.escape))
  }

  /** The cache after a call: the same after a null or a hit, else with the new entry, on its own if it was full. */
  function CacheAfter(lower: string -> string, cache: map<Key, Compiled>, q: Query): map<Key, Compiled> {
    if q.pattern.None? || q.text.None? || KeyOf(lower, q) in cache then cache
    else
      var key := KeyOf(lower, q);
      (if |cache| >= 512 then map[] else cache)[key := Fresh(key.pattern, key.escape)]
  }

  /** One connection's LIKE function, with `lower` for the case folding of the host language. */
  class Matcher {
    const lower: string -> string
    var compiled: map<Key, Compiled>

    ghost predicate Valid()
      reads this
    {
      |compiled| <= 512 && forall k :: k in compiled ==> compiled[k] == Fresh(k.pattern, k.escape)
    }

    constructor (lower: string -> string)
      ensures Valid() && this.lower == lower && compiled == map[]
    {
      this.lower := lower;
      compiled := map[];
    }

    /** A full cache is emptied before the new entry goes in. */
    method Remember(key: Key, entry: Compiled)
      requires Valid() && entry == Fresh(key.pattern, key.escape) && key !in compiled
      modifies this
      ensures Valid()
      ensures compiled == (if |old(compiled)| >= 512 then map[] else old(compiled))[key := entry]
    {
      if |compiled| >= CACHE_LIMIT {
        compiled := map[];
      }
      compiled := compiled[key := entry];
    }

    method Call(q: Query) returns (r: Option<bool>)
      requires Valid()
      modifies this
      ensures Valid() && r == Expected(lower, q)
      ensures compiled == CacheAfter(lower, old(compiled), q)
    {
      if q.pattern.None? || q.text.None? {
        return None;
      }
      var pattern := lower(q.pattern.value);
      var escape := Folded(lower, q.escape);
      var key := Key(pattern, escape);
      FreshIsLike(pattern, escape, lower(q.text.value));
      var entry;
      if key in compiled {
        entry := compiled[key];
      } else {
        entry := Compile(pattern, escape);
        Remember(key, entry);
      }
      return Some(entry.Regex? && FullMatch(entry.atoms, lower(q.text.value)));
    }

    /** Any history of calls: every answer is the direct one, whatever the cache went through before. */
    method Calls(queries: seq<Query>) returns (answers: seq<Option<bool>>)
      requires Valid()
      modifies this
      ensures Valid() && |answers| == |queries|
      ensures forall i :: 0 <= i < |queries| ==> answers[i] == Expected(lower, queries[i])
    {
      answers := [];
      for i := 0 to |queries|
        invariant Valid() && |answers| == i
        invariant forall j :: 0 <= j < i ==> answers[j] == Expected(lower, queries[j])
      {
        var r := Call(queries[i]);
        answers := answers + [r];
      }
    }
  }
}
