/** JSON values as the relay's Python code sees them, and the few string operations it applies to them. */
module Json {

  datatype Option<+T> = None | Some(value: T)

  datatype Result<+T> = Ok(value: T) | Err(error: string)

  datatype Json =
    | JNull
    | JBool(b: bool)
    | JInt(i: int)
    | JReal(r: real)
    | JStr(s: string)
    | JArr(items: seq<Json>)
    | JObj(fields: map<string, Json>)

  /** The characters Python's str.strip and the regular-expression class \s treat as white space. */
  predicate IsSpace(c: char) {
    || '\t' <= c <= '\r' || '\U{1c}' <= c <= ' ' || c == '\U{85}' || c == '\U{a0}' || c == '\U{1680}'
    || '\U{2000}' <= c <= '\U{200a}' || c == '\U{2028}' || c == '\U{2029}' || c == '\U{202f}'
    || c == '\U{205f}' || c == '\U{3000}'
  }

  /** `not s.strip()` */
  predicate Blank(s: string) {
    forall i :: 0 <= i < |s| ==> IsSpace(s[i])
  }

  function TrimLeft(s: string): string {
    if s != [] && IsSpace(s[0]) then TrimLeft(s[1..]) else s
  }

  function TrimRight(s: string): string {
    if s != [] && IsSpace(s[|s| - 1]) then TrimRight(s[..|s| - 1]) else s
  }

  function Strip(s: string): string {
    TrimRight(TrimLeft(s))
  }

  /** `q in s` */
  predicate Occurs(q: string, s: string) {
    exists i, j :: 0 <= i <= j <= |s| && s[i..j] == q
  }

  /** The distinct elements of a list. */
  function Elements<T(==)>(s: seq<T>): set<T> {
    set x | x in s
  }

  predicate Distinct<T(==)>(s: seq<T>) {
    forall i, j :: 0 <= i < j < |s| ==> s[i] != s[j]
  }

  /** `len(s) == len(set(s))` holds exactly when no element repeats. */
  lemma {:induction false} DistinctCount<T>(s: seq<T>)
    ensures |Elements(s)| <= |s|
    ensures |Elements(s)| == |s| <==> Distinct(s)
  {
    if s != [] {
      var last := |s| - 1;
      var front := s[..last];
      DistinctCount(front);
      assert s == front + [s[last]];
      if s[last] in front {
        assert Elements(s) == Elements(front);
      } else {
        assert Elements(s) == Elements(front) + {s[last]};
      }
    }
  }

  lemma SubsetSize<T>(a: set<T>, b: set<T>)
    requires a <= b
    ensures |a| <= |b|
    ensures |a| == |b| ==> a == b
  {
    assert b == a + (b - a);
  }

  /** Where a string has its first dot: `s.partition(".")`, without the dot. */
  function Partition(s: string): (string, string) {
    if s == [] then ("", "")
    else if s[0] == '.' then ("", s[1..])
    else var (head, tail) := Partition(s[1..]); ([s[0]] + head, tail)
  }

  lemma {:induction false} PartitionDotted(head: string, tail: string)
    requires '.' !in head
    ensures Partition(head + "." + tail) == (head, tail)
  {
    var s := head + "." + tail;
    if head == [] {
      assert s[1..] == tail;
    } else {
      PartitionDotted(head[1..], tail);
      assert s[1..] == head[1..] + "." + tail;
      assert head == [head[0]] + head[1..];
    }
  }

  lemma {:induction false} PartitionJoins(s: string)
    ensures '.' in s ==> s == Partition(s).0 + "." + Partition(s).1
    ensures '.' !in s ==> Partition(s) == (s, "")
    ensures '.' !in Partition(s).0
  {
    if s != [] && s[0] != '.' {
      PartitionJoins(s[1..]);
      assert s == [s[0]] + s[1..];
    }
  }
}
