/** Finding the tokens that spell one JSON field's value in a model's raw output. */
module Tokens {
  import opened Json

  // ---- Where the field's key ends: re.search of "field", white space, colon, white space ----

  /** The key's pattern matches at `at`, with its colon at `colon` and its end at `start`. */
  predicate KeyAt(text: string, field: string, at: nat, colon: nat, start: nat) {
    && at + |field| + 2 <= colon < start <= |text|
    && text[at] == '"' && text[at + 1..at + 1 + |field|] == field && text[at + 1 + |field|] == '"'
    && Gap(text, at + 2 + |field|, colon) && text[colon] == ':'
    && Gap(text, colon + 1, start) && (start < |text| ==> !IsSpace(text[start]))
  }

  /** Nothing but white space from i up to j. */
  predicate Gap(text: string, i: nat, j: nat) {
    i <= j <= |text| && forall k :: i <= k < j ==> IsSpace(text[k])
  }

  /** The first place at or after `i` that is not white space. */
  function SkipSpace(text: string, i: nat): (j: nat)
    requires i <= |text|
    ensures Gap(text, i, j) && (j < |text| ==> !IsSpace(text[j]))
    decreases |text| - i
  {
    if i < |text| && IsSpace(text[i]) then SkipSpace(text, i + 1) else i
  }

  /** White space is skipped as far as it goes, so a place determines where a blank stretch ends. */
  lemma GapEnds(text: string, i: nat, j: nat, k: nat)
    requires Gap(text, i, j) && (j < |text| ==> !IsSpace(text[j]))
    requires Gap(text, i, k) && (k < |text| ==> !IsSpace(text[k]))
    ensures j == k
  {
  }

  lemma KeyEndUnique(text: string, field: string, at: nat, c1: nat, s1: nat, c2: nat, s2: nat)
    requires KeyAt(text, field, at, c1, s1) && KeyAt(text, field, at, c2, s2)
    ensures c1 == c2 && s1 == s2
  {
    assert !IsSpace(':');
    GapEnds(text, at + 2 + |field|, c1, c2);
    GapEnds(text, c1 + 1, s1, s2);
  }

  predicate NoKeyBefore(text: string, field: string, at: nat) {
    forall i, c, s | 0 <= i < at && 0 <= c < s <= |text| :: !KeyAt(text, field, i, c, s)
  }

  method MatchAt(text: string, field: string, at: nat) returns (end: Option<nat>, ghost colon: nat)
    requires at <= |text|
    ensures end.Some? ==> KeyAt(text, field, at, colon, end.value)
    ensures end.None? ==> forall c, s | 0 <= c < s <= |text| :: !KeyAt(text, field, at, c, s)
  {
    colon := 0;
    var after := at + |field| + 2;
    if after > |text| || text[at] != '"' || text[at + 1..at + 1 + |field|] != field || text[at + 1 + |field|] != '"' {
      return None, colon;
    }
    var mark := SkipSpace(text, after);
    assert !IsSpace(':');
    if mark == |text| || text[mark] != ':' {
      return None, colon;
    }
    return Some(SkipSpace(text, mark + 1)), mark;
  }

  /** The leftmost match. */
  method Search(text: string, field: string) returns (end: Option<nat>, ghost at: nat, ghost colon: nat)
    ensures end.Some? ==> KeyAt(text, field, at, colon, end.value) && NoKeyBefore(text, field, at)
    ensures end.None? ==> NoKeyBefore(text, field, |text|)
  {
    at, colon := 0, 0;
    for i := 0 to |text|
      invariant NoKeyBefore(text, field, i)
    {
      end, colon := MatchAt(text, field, i);
      if end.Some? {
        at := i;
        return;
      }
    }
    end := None;
  }

  // ---- Where the value ends ----

  /** How many backslashes stand directly before `j`, counting back no further than `from`. */
  function Slashes(text: string, from: nat, j: nat): nat
    requires from <= j <= |text|
    decreases j
  {
    if j > from && text[j - 1] == '\\' then Slashes(text, from, j - 1) + 1 else 0
  }

  /** A quote closes a string exactly when an even number of backslashes stands before it. */
  predicate Closes(text: string, from: nat, j: nat)
    requires from <= j < |text|
  {
    text[j] == '"' && Slashes(text, from, j) % 2 == 0
  }

  predicate StringEnd(text: string, from: nat, end: nat) {
    && from <= end <= |text| && (end < |text| ==> Closes(text, from, end))
    && forall j :: from <= j < end ==> !Closes(text, from, j)
  }

  predicate Stops(c: char) {
    c == ',' || c == '}' || c == '\n'
  }

  predicate BareEnd(text: string, from: nat, end: nat) {
    && from <= end <= |text| && (end < |text| ==> text[end] in ",}\n")
    && forall j :: from <= j < end ==> text[j] !in ",}\n"
  }

  predicate Quoted(text: string, start: nat) {
    start < |text| && text[start] == '"'
  }

  predicate ValueAt(text: string, start: nat, span: (nat, nat)) {
    if Quoted(text, start) then span.0 == start + 1 && StringEnd(text, span.0, span.1)
    else span.0 == start && BareEnd(text, span.0, span.1)
  }

  lemma ValueUnique(text: string, start: nat, x: (nat, nat), y: (nat, nat))
    requires ValueAt(text, start, x) && ValueAt(text, start, y)
    ensures x == y
  {
  }

  /** What _value_span means: the value after the first match of the key, or nothing without one. */
  ghost predicate IsSpan(text: string, field: string, span: Option<(nat, nat)>) {
    match span
    case None => NoKeyBefore(text, field, |text|)
    case Some(s) => exists at, colon, start ::
      KeyAt(text, field, at, colon, start) && NoKeyBefore(text, field, at) && ValueAt(text, start, s)
  }

  /** The scanner. Every index it computes stays within the text, also when the text breaks off after a backslash. */
  method ValueSpan(text: string, field: string) returns (span: Option<(nat, nat)>)
    ensures IsSpan(text, field, span)
    ensures span.Some? ==> span.value.0 <= span.value.1 <= |text|
  {
    var found, at, colon := Search(text, field);
    if found.None? {
      return None;
    }
    var start := found.value;
    ghost var value := start;
    if start < |text| && text[start] == '"' {
      start := start + 1;
      var end := start;
      while end < |text| && text[end] != '"'
        invariant start <= end <= |text| + 1
        invariant end <= |text| ==> Slashes(text, start, end) % 2 == 0
        invariant forall j :: start <= j < end && j < |text| ==> !Closes(text, start, j)
        decreases |text| - end
      {
        end := end + if text[end] == '\\' then 2 else 1;
      }
      assert ValueAt(text, value, (start, if end < |text| then end else |text|));
      return Some((start, if end < |text| then end else |text|));
    }
    var end := start;
    while end < |text| && !Stops(text[end])
      invariant start <= end <= |text|
      invariant forall j :: start <= j < end ==> !Stops(text[j])
    {
      end := end + 1;
    }
    assert ValueAt(text, value, (start, end));
    return Some((start, end));
  }

  /** The first match of the key decides the span: no other answer fits. */
  lemma SpanUnique(text: string, field: string, at: nat, colon: nat, start: nat, s: (nat, nat), span: Option<(nat, nat)>)
    requires KeyAt(text, field, at, colon, start) && NoKeyBefore(text, field, at) && ValueAt(text, start, s)
    requires IsSpan(text, field, span)
    ensures span == Some(s)
  {
    assert span.Some? by {
      assert KeyAt(text, field, at, colon, start);
    }
    var at2, colon2, start2 :|
      KeyAt(text, field, at2, colon2, start2) && NoKeyBefore(text, field, at2) && ValueAt(text, start2, span.value);
    assert at2 == at;
    KeyEndUnique(text, field, at, colon, start, colon2, start2);
    ValueUnique(text, start, s, span.value);
  }

  // ---- Strings escaped as in section 7 of RFC 8259 ----

  /** One character of a JSON string: unescaped, a two-character escape, or four hexadecimal digits. */
  datatype Unit = Plain(c: char) | Short(c: char) | Hex(digits: string)

  predicate IsHex(c: char) {
    '0' <= c <= '9' || 'a' <= c <= 'f' || 'A' <= c <= 'F'
  }

  predicate ValidUnit(u: Unit) {
    match u
    case Plain(c) => c >= ' ' && c != '"' && c != '\\'
    case Short(c) => c in "\"\\/bfnrt"
    case Hex(d) => |d| == 4 && forall i :: 0 <= i < 4 ==> IsHex(d[i])
  }

  function SpellUnit(u: Unit): string {
    match u
    case Plain(c) => [c]
    case Short(c) => ['\\', c]
    case Hex(d) => ['\\', 'u'] + d
  }

  function Spell(units: seq<Unit>): string {
    if units == [] then "" else SpellUnit(units[0]) + Spell(units[1..])
  }

  predicate ValidUnits(units: seq<Unit>) {
    units == [] || (ValidUnit(units[0]) && ValidUnits(units[1..]))
  }

  /** Before `end` an even number of backslashes stands, and no quote from i on closes. */
  ghost predicate StaysOpen(text: string, from: nat, i: nat, end: nat)
    requires from <= i <= end <= |text|
  {
    Slashes(text, from, end) % 2 == 0 && forall j :: i <= j < end ==> !Closes(text, from, j)
  }

  lemma PlainStaysOpen(text: string, from: nat, i: nat, end: nat)
    requires from <= i < end <= |text| && Slashes(text, from, i) % 2 == 0
    requires forall k :: i <= k < end ==> text[k] != '"' && text[k] != '\\'
    ensures StaysOpen(text, from, i, end)
  {
  }

  /** A backslash and the character it escapes, quote and backslash included. */
  lemma EscapeStaysOpen(text: string, from: nat, i: nat)
    requires from <= i && i + 1 < |text| && text[i] == '\\' && Slashes(text, from, i) % 2 == 0
    ensures StaysOpen(text, from, i, i + 2)
  {
    assert Slashes(text, from, i + 1) == Slashes(text, from, i) + 1;
  }

  /** After one whole unit an even number of backslashes again stands before, and no quote inside it closes. */
  lemma UnitKeepsOpen(text: string, from: nat, i: nat, u: Unit)
    requires from <= i && SpelledAt(text, i, SpellUnit(u)) && ValidUnit(u) && Slashes(text, from, i) % 2 == 0
    ensures StaysOpen(text, from, i, i + |SpellUnit(u)|)
  {
    assert text[i + 0] == SpellUnit(u)[0];
    if u.Plain? {
      PlainStaysOpen(text, from, i, i + 1);
    } else {
      EscapeStaysOpen(text, from, i);
      if u.Hex? {
        forall k | i + 2 <= k < i + 6 ensures IsHex(text[k]) {
          assert text[i + (k - i)] == SpellUnit(u)[k - i] == u.digits[k - i - 2];
        }
        PlainStaysOpen(text, from, i + 2, i + 6);
        OpenInTurn(text, from, i, i + 2, i + 6);
      }
    }
  }

  predicate SpelledAt(text: string, i: nat, word: string) {
    i + |word| <= |text| && forall k :: 0 <= k < |word| ==> text[i + k] == word[k]
  }

  lemma SpelledInTurn(text: string, i: nat, first: string, second: string)
    requires SpelledAt(text, i, first + second)
    ensures SpelledAt(text, i, first) && SpelledAt(text, i + |first|, second)
  {
    var whole := first + second;
    assert forall k :: 0 <= k < |first| ==> whole[k] == first[k];
    assert forall k :: 0 <= k < |second| ==> whole[|first| + k] == second[k];
  }

  lemma OpenInTurn(text: string, from: nat, i: nat, mid: nat, end: nat)
    requires from <= i <= mid <= end <= |text| && StaysOpen(text, from, i, mid) && StaysOpen(text, from, mid, end)
    ensures StaysOpen(text, from, i, end)
  {
  }

  /** Valid units are spelled one after the other from i to end. */
  predicate UnitsAt(text: string, i: nat, units: seq<Unit>, end: nat)
    decreases |units|
  {
    if units == [] then i == end <= |text|
    else
      && ValidUnit(units[0]) && SpelledAt(text, i, SpellUnit(units[0]))
      && UnitsAt(text, i + |SpellUnit(units[0])|, units[1..], end)
  }

  /** Wherever the string's spelling stands in a text, its units stand there one after the other. */
  lemma {:induction false} SpellingIsUnits(text: string, i: nat, units: seq<Unit>)
    requires SpelledAt(text, i, Spell(units)) && ValidUnits(units)
    ensures UnitsAt(text, i, units, i + |Spell(units)|)
    decreases |units|
  {
    if units != [] {
      var word, rest := SpellUnit(units[0]), Spell(units[1..]);
      assert Spell(units) == word + rest && |word + rest| == |word| + |rest|;
      SpelledInTurn(text, i, word, rest);
      SpellingIsUnits(text, i + |word|, units[1..]);
    }
  }

  lemma {:induction false} UnitsKeepOpen(text: string, from: nat, i: nat, units: seq<Unit>, end: nat)
    requires from <= i && UnitsAt(text, i, units, end) && Slashes(text, from, i) % 2 == 0
    ensures i <= end <= |text| && StaysOpen(text, from, i, end)
    decreases |units|
  {
    if units != [] {
      var next := i + |SpellUnit(units[0])|;
      UnitKeepsOpen(text, from, i, units[0]);
      UnitsKeepOpen(text, from, next, units[1..], end);
      OpenInTurn(text, from, i, next, end);
    }
  }

  lemma QuotedUnits(text: string, start: nat, units: seq<Unit>, end: nat)
    requires Quoted(text, start) && UnitsAt(text, start + 1, units, end) && Quoted(text, end)
    ensures ValueAt(text, start, (start + 1, end))
  {
    UnitsKeepOpen(text, start + 1, start + 1, units, end);
  }

  /** The field's key first occurs at `at`, and a quoted string of these units follows it, from `start` to `end`. */
  predicate FirstField(text: string, field: string, at: nat, colon: nat, start: nat, units: seq<Unit>, end: nat) {
    && KeyAt(text, field, at, colon, start) && NoKeyBefore(text, field, at)
    && Quoted(text, start) && UnitsAt(text, start + 1, units, end) && Quoted(text, end)
  }

  /** The part of the text that a span covers, or nothing when there is none or it is out of bounds. */
  function TextOf(text: string, span: Option<(nat, nat)>): Option<string> {
    if span.Some? && span.value.0 <= span.value.1 <= |text| then Some(text[span.value.0..span.value.1]) else None
  }

  lemma SpelledBefore(text: string, i: nat, word: string, end: nat)
    requires SpelledAt(text, i, word) && i + |word| <= end <= |text|
    ensures text[i..end] == word + text[i + |word|..end]
  {
  }

  lemma {:induction false} UnitsSpelled(text: string, i: nat, units: seq<Unit>, end: nat)
    requires UnitsAt(text, i, units, end)
    ensures TextOf(text, Some((i, end))) == Some(Spell(units))
    decreases |units|
  {
    if units != [] {
      var word := SpellUnit(units[0]);
      UnitsSpelled(text, i + |word|, units[1..], end);
      SpelledBefore(text, i, word, end);
    } else {
      assert text[i..end] == "";
    }
  }

  lemma SpanOfField(text: string, field: string, at: nat, colon: nat, start: nat, units: seq<Unit>, end: nat,
                    span: Option<(nat, nat)>)
    requires FirstField(text, field, at, colon, start, units, end) && IsSpan(text, field, span)
    ensures span == Some((start + 1, end))
  {
    QuotedUnits(text, start, units, end);
    SpanUnique(text, field, at, colon, start, (start + 1, end), span);
  }

  /** The span of a string value is its escaped text, exactly, however the string is escaped. */
  lemma SpanIsEscapedText(text: string, field: string, at: nat, colon: nat, start: nat, units: seq<Unit>, end: nat,
                          span: Option<(nat, nat)>)
    requires FirstField(text, field, at, colon, start, units, end) && IsSpan(text, field, span)
    ensures span == Some((start + 1, end)) && TextOf(text, span) == Some(Spell(units))
  {
    SpanOfField(text, field, at, colon, start, units, end, span);
    UnitsSpelled(text, start + 1, units, end);
  }

  // ---- Every string has such a spelling, and reading it back gives the string ----

  function HexDigit(n: nat): char
    requires n < 16
  {
    "0123456789abcdef"[n]
  }

  function HexValue(c: char): (n: nat)
    requires IsHex(c)
    ensures n < 16
  {
    if '0' <= c <= '9' then (c as int - '0' as int)
    else if 'a' <= c <= 'f' then (c as int - 'a' as int) + 10
    else (c as int - 'A' as int) + 10
  }

  lemma HexValueOfDigit(n: nat)
    requires n < 16
    ensures IsHex(HexDigit(n)) && HexValue(HexDigit(n)) == n
  {
  }

  /** The escaping json.dumps applies with ensure_ascii off. */
  function EscapeChar(c: char): Unit {
    if c == '"' || c == '\\' then Short(c)
    else if c == '\n' then Short('n')
    else if c == '\t' then Short('t')
    else if c == '\r' then Short('r')
    else if c as int == 8 then Short('b')
    else if c as int == 12 then Short('f')
    else if c < ' ' then Hex(['0', '0', HexDigit(c as int / 16), HexDigit(c as int % 16)])
    else Plain(c)
  }

  function Escape(s: string): (units: seq<Unit>)
    ensures |units| == |s|
  {
    if s == [] then [] else [EscapeChar(s[0])] + Escape(s[1..])
  }

  function ShortMeaning(c: char): char {
    match c
    case 'n' => '\n'
    case 't' => '\t'
    case 'r' => '\r'
    case 'b' => 8 as char
    case 'f' => 12 as char
    case _ => c
  }

  /** Reading a JSON string's characters; nothing for a malformed escape or half of a surrogate pair. */
  function Unescape(text: string): Option<string>
    decreases |text|
  {
    if text == "" then Some("")
    else if text[0] == '"' || text[0] < ' ' then None
    else if text[0] != '\\' then Prepend(text[0], Unescape(text[1..]))
    else if |text| < 2 then None
    else if text[1] in "\"\\/bfnrt" then Prepend(ShortMeaning(text[1]), Unescape(text[2..]))
    else if text[1] == 'u' && |text| >= 6 && IsHex(text[2]) && IsHex(text[3]) && IsHex(text[4]) && IsHex(text[5]) then
      var code := HexValue(text[2]) * 4096 + HexValue(text[3]) * 256 + HexValue(text[4]) * 16 + HexValue(text[5]);
      if 0xD800 <= code < 0xE000 then None else Prepend(code as char, Unescape(text[6..]))
    else None
  }

  function Prepend(c: char, s: Option<string>): Option<string> {
    if s.None? then None else Some([c] + s.value)
  }

  lemma EscapeCharReads(c: char, rest: string)
    ensures ValidUnit(EscapeChar(c))
    ensures Unescape(SpellUnit(EscapeChar(c)) + rest) == Prepend(c, Unescape(rest))
  {
    var u := EscapeChar(c);
    var text := SpellUnit(u) + rest;
    match u
    case Plain(_) => assert text[1..] == rest;
    case Short(x) =>
      assert text[1] == x && text[2..] == rest;
      assert x in "\"\\/bfnrt" && ShortMeaning(x) == c;
    case Hex(d) =>
      var n := c as int;
      HexValueOfDigit(n / 16);
      HexValueOfDigit(n % 16);
      HexValueOfDigit(0);
      assert text[0] == '\\' && text[1] == 'u' && text[2] == d[0] && text[3] == d[1] && text[4] == d[2] && text[5] == d[3];
      assert text[6..] == rest;
  }

  lemma {:induction false} EscapeReads(s: string)
    ensures ValidUnits(Escape(s)) && Unescape(Spell(Escape(s))) == Some(s)
  {
    if s != [] {
      EscapeReads(s[1..]);
      EscapeCharReads(s[0], Spell(Escape(s[1..])));
      assert Escape(s)[1..] == Escape(s[1..]);
      assert s == [s[0]] + s[1..];
    }
  }

  /** The round trip: write any string as a field's value, and the scanner's span reads back as that string. */
  lemma ScannerRoundTrip(text: string, field: string, at: nat, colon: nat, start: nat, s: string, end: nat,
                         span: Option<(nat, nat)>)
    requires FirstField(text, field, at, colon, start, Escape(s), end) && IsSpan(text, field, span)
    ensures TextOf(text, span).Some? && Unescape(TextOf(text, span).value) == Some(s)
  {
    EscapeReads(s);
    SpanIsEscapedText(text, field, at, colon, start, Escape(s), end, span);
  }

  // ---- Which tokens spell the value ----

  function Text(tokens: seq<string>): string {
    if tokens == [] then "" else Text(tokens[..|tokens| - 1]) + tokens[|tokens| - 1]
  }

  /** Where token k begins; token k ends where token k + 1 begins. */
  function Offset(tokens: seq<string>, k: nat): nat
    requires k <= |tokens|
  {
    |Text(tokens[..k])|
  }

  lemma OffsetStep(tokens: seq<string>, k: nat)
    requires k < |tokens|
    ensures Offset(tokens, k + 1) == Offset(tokens, k) + |tokens[k]|
  {
    assert tokens[..k + 1][..k] == tokens[..k];
  }

  /** Token k and the span share a character. */
  ghost predicate Overlaps(tokens: seq<string>, k: nat, span: (nat, nat))
    requires k < |tokens|
  {
    exists p :: Within(p, Offset(tokens, k), Offset(tokens, k + 1)) && Within(p, span.0, span.1)
  }

  predicate Within(p: nat, from: nat, to: nat) {
    from <= p < to
  }

  /** The position lies inside token k, with characters of the token on both sides. */
  predicate Straddles(tokens: seq<string>, k: nat, p: nat)
    requires k < |tokens|
  {
    Offset(tokens, k) < p < Offset(tokens, k + 1)
  }

  predicate Selected(tokens: seq<string>, k: nat, span: Option<(nat, nat)>)
    requires k < |tokens|
  {
    && !Blank(tokens[k])
    && (span.Some? ==> Offset(tokens, k) < span.value.1 && Offset(tokens, k + 1) > span.value.0)
  }

  ghost predicate Increasing(picks: seq<nat>) {
    forall i, j :: 0 <= i < j < |picks| ==> picks[i] < picks[j]
  }

  method Offsets(tokens: seq<string>) returns (offsets: seq<(nat, nat)>)
    ensures |offsets| == |tokens|
    ensures forall k :: 0 <= k < |tokens| ==> offsets[k] == (Offset(tokens, k), Offset(tokens, k + 1))
  {
    offsets := [];
    var position := 0;
    for i := 0 to |tokens|
      invariant |offsets| == i && position == Offset(tokens, i)
      invariant forall k :: 0 <= k < i ==> offsets[k] == (Offset(tokens, k), Offset(tokens, k + 1))
    {
      OffsetStep(tokens, i);
      offsets := offsets + [(position, position + |tokens[i]|)];
      position := position + |tokens[i]|;
    }
  }

  /** The positions of the tokens that spell the value, in order; the whole output's when the key is missing. */
  method AnswerTokens(tokens: seq<string>, field: string) returns (span: Option<(nat, nat)>, chosen: seq<nat>)
    ensures IsSpan(Text(tokens), field, span) && (span.Some? ==> span.value.0 <= span.value.1 <= |Text(tokens)|)
    ensures Increasing(chosen)
    ensures forall k: nat :: k in chosen <==> k < |tokens| && Selected(tokens, k, span)
  {
    span := ValueSpan(Text(tokens), field);
    var offsets := Offsets(tokens);
    chosen := [];
    for i := 0 to |tokens|
      invariant Increasing(chosen) && forall x :: 0 <= x < |chosen| ==> chosen[x] < i
      invariant forall k: nat :: k in chosen <==> k < i && Selected(tokens, k, span)
    {
      var place := offsets[i];
      assert place == (Offset(tokens, i), Offset(tokens, i + 1));
      if !Blank(tokens[i]) && (span.None? || (place.0 < span.value.1 && place.1 > span.value.0)) {
        assert Selected(tokens, i, span);
        chosen := chosen + [i];
      } else {
        assert !Selected(tokens, i, span);
      }
    }
  }

  /** A selected token is a non-blank one that overlaps the span, or straddles the place of an empty span. */
  lemma SelectedMeans(tokens: seq<string>, k: nat, span: (nat, nat))
    requires k < |tokens| && span.0 <= span.1
    ensures Selected(tokens, k, Some(span)) <==>
      !Blank(tokens[k]) && (Overlaps(tokens, k, span) || (span.0 == span.1 && Straddles(tokens, k, span.0)))
  {
    OffsetStep(tokens, k);
    var a, b := Offset(tokens, k), Offset(tokens, k + 1);
    if Selected(tokens, k, Some(span)) && span.0 < span.1 {
      var p := if a < span.0 then span.0 else a;
      assert Within(p, a, b) && Within(p, span.0, span.1);
    }
  }

  ghost predicate ExactlyTheOverlapping(tokens: seq<string>, span: (nat, nat)) {
    forall k :: 0 <= k < |tokens| ==>
      (Selected(tokens, k, Some(span)) <==> !Blank(tokens[k]) && Overlaps(tokens, k, span))
  }

  /**
   For every way of cutting the output into tokens, the selected tokens are exactly the non-blank ones that
   overlap the span, unless the span is empty and lies strictly inside a non-blank token.
   */
  lemma SelectionExactIff(tokens: seq<string>, span: (nat, nat))
    requires span.0 <= span.1
    ensures ExactlyTheOverlapping(tokens, span) <==>
      (span.0 == span.1 ==> forall k :: 0 <= k < |tokens| && Straddles(tokens, k, span.0) ==> Blank(tokens[k]))
  {
    forall k | 0 <= k < |tokens|
      ensures Selected(tokens, k, Some(span)) <==>
        !Blank(tokens[k]) && (Overlaps(tokens, k, span) || (span.0 == span.1 && Straddles(tokens, k, span.0)))
    {
      SelectedMeans(tokens, k, span);
    }
    if span.0 == span.1 {
      assert forall k :: 0 <= k < |tokens| ==> !Overlaps(tokens, k, span);
    }
  }

  /** With any non-empty string as the value, the selection is exact however the output is cut. */
  lemma NonEmptyValueSelectsExactly(tokens: seq<string>, field: string, at: nat, colon: nat, start: nat, units: seq<Unit>,
                                    end: nat, span: Option<(nat, nat)>)
    requires FirstField(Text(tokens), field, at, colon, start, units, end) && units != []
    requires IsSpan(Text(tokens), field, span)
    ensures span.Some? && ExactlyTheOverlapping(tokens, span.value)
  {
    SpanOfField(Text(tokens), field, at, colon, start, units, end, span);
    UnitsTakeSpace(Text(tokens), start + 1, units, end);
    SelectionExactIff(tokens, span.value);
  }

  lemma {:induction false} UnitsTakeSpace(text: string, i: nat, units: seq<Unit>, end: nat)
    requires UnitsAt(text, i, units, end)
    ensures i + |units| <= end
    decreases |units|
  {
    if units != [] {
      UnitsTakeSpace(text, i + |SpellUnit(units[0])|, units[1..], end);
    }
  }

  /** An output in a single token with an empty answer: the token is selected although nothing overlaps the span. */
  lemma EmptyAnswerSelectsItsToken()
    ensures Text(["{\"answer\": \"\"}"]) == "{\"answer\": \"\"}"
    ensures IsSpan("{\"answer\": \"\"}", "answer", Some((12, 12)))
    ensures Selected(["{\"answer\": \"\"}"], 0, Some((12, 12)))
    ensures !ExactlyTheOverlapping(["{\"answer\": \"\"}"], (12, 12))
  {
    var text := "{\"answer\": \"\"}";
    var tokens := [text];
    assert tokens[..0] == [] && tokens[..1] == tokens;
    assert Text(tokens) == "" + text;
    assert Offset(tokens, 0) == 0 && Offset(tokens, 1) == 14;
    assert !IsSpace(text[0]) && !Blank(tokens[0]);
    EmptyAnswerSpan();
    assert Straddles(tokens, 0, 12);
    SelectionExactIff(tokens, (12, 12));
    SelectedMeans(tokens, 0, (12, 12));
  }

  lemma EmptyAnswerSpan()
    ensures IsSpan("{\"answer\": \"\"}", "answer", Some((12, 12)))
  {
    var text := "{\"answer\": \"\"}";
    assert text[2..8] == "answer" && text[1] == '"' && text[8] == '"' && text[9] == ':' && text[10] == ' ';
    assert text[0] != '"' && text[11] == '"' && text[12] == '"';
    assert NoKeyBefore(text, "answer", 1);
    assert KeyAt(text, "answer", 1, 9, 11) && ValueAt(text, 11, (12, 12));
  }
}
