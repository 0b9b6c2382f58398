/** Strings: prefixes, splitting at a separator, searching, decimal numbers. */
module Text {
  datatype Option<+T> = None | Some(value: T)

  predicate StartsWith(s: string, prefix: string) {
    |prefix| <= |s| && s[..|prefix|] == prefix
  }

  predicate EndsWith(s: string, suffix: string) {
    |suffix| <= |s| && s[|s| - |suffix|..] == suffix
  }

  function SplitOn(s: string, separator: char): (parts: seq<string>)
    ensures |parts| > 0
  {
    if s == [] then [[]]
    else
      var rest := SplitOn(s[1..], separator);
      if s[0] == separator then [[]] + rest else [[s[0]] + rest[0]] + rest[1..]
  }

  predicate Digits(s: string) {
    forall k :: 0 <= k < |s| ==> '0' <= s[k] <= '9'
  }

  lemma {:induction false} SplitJoined(a: string, c: char, b: string)
    ensures SplitOn(a + [c] + b, c) == SplitOn(a, c) + SplitOn(b, c)
  {
    if a == "" {
      assert a + [c] + b == [c] + b;
      assert ([c] + b)[1..] == b;
    } else {
      assert (a + [c] + b)[1..] == a[1..] + [c] + b;
      SplitJoined(a[1..], c, b);
    }
  }

  lemma {:induction false} SplitPart(part: string, c: char)
    requires Digits(part) && !('0' <= c <= '9')
    ensures SplitOn(part, c) == [part]
  {
    if part != "" {
      assert Digits(part[1..]);
      SplitPart(part[1..], c);
      assert [part[0]] + part[1..] == part;
    }
  }

  lemma SplitFirst(part: string, c: char, rest: string)
    requires Digits(part) && !('0' <= c <= '9')
    ensures SplitOn(part + [c] + rest, c) == [part] + SplitOn(rest, c)
  {
    SplitJoined(part, c, rest);
    SplitPart(part, c);
  }

  function Decimal(digits: string): (n: nat)
    requires Digits(digits)
  {
    if digits == "" then 0
    else Decimal(digits[..|digits| - 1]) * 10 + (digits[|digits| - 1] as int - '0' as int)
  }

  predicate MatchesAt(s: string, pattern: string, i: int) {
    0 <= i <= |s| - |pattern| && s[i..i + |pattern|] == pattern
  }

  function IndexFrom(s: string, pattern: string, from: nat): (index: Option<nat>)
    ensures index.None? ==> forall i :: from <= i ==> !MatchesAt(s, pattern, i)
    ensures index.Some? ==> MatchesAt(s, pattern, index.value)
    ensures index.Some? ==> from <= index.value && forall i :: from <= i < index.value ==> !MatchesAt(s, pattern, i)
    decreases |s| + 1 - from
  {
    if from > |s| then None
    else if MatchesAt(s, pattern, from) then Some(from)
    else IndexFrom(s, pattern, from + 1)
  }

  function IndexOf(s: string, pattern: string): (index: Option<nat>)
    ensures index.None? ==> forall i :: !MatchesAt(s, pattern, i)
    ensures index.Some? ==> MatchesAt(s, pattern, index.value)
    ensures index.Some? ==> forall i :: 0 <= i < index.value ==> !MatchesAt(s, pattern, i)
  {
    IndexFrom(s, pattern, 0)
  }

  function Max(a: int, b: int): int { if a < b then b else a }
  function Min(a: int, b: int): int { if a < b then a else b }

  predicate AllNonEmpty(parts: seq<string>) {
    forall k :: 0 <= k < |parts| ==> parts[k] != ""
  }

  /** The parts one after the other. */
  function Flatten(parts: seq<string>): string {
    if parts == [] then "" else Flatten(parts[..|parts| - 1]) + parts[|parts| - 1]
  }

  lemma FlattenPush(parts: seq<string>, s: string)
    ensures Flatten(parts + [s]) == Flatten(parts) + s
  {
    assert (parts + [s])[..|parts|] == parts;
  }

  lemma {:induction false} FlattenAppend(a: seq<string>, b: seq<string>)
    ensures Flatten(a + b) == Flatten(a) + Flatten(b)
  {
    if b == [] {
      assert a + b == a;
    } else {
      hide Flatten;
      var front, last := b[..|b| - 1], b[|b| - 1];
      FlattenAppend(a, front);
      assert a + b == (a + front) + [last] && b == front + [last];
      FlattenPush(a + front, last);
      FlattenPush(front, last);
      assert Flatten(a) + (Flatten(front) + last) == Flatten(a) + Flatten(front) + last;
    }
  }

  lemma FlattenCons(s: string, parts: seq<string>)
    ensures Flatten([s] + parts) == s + Flatten(parts)
  {
    FlattenAppend([s], parts);
    assert [s][..0] == [];
  }
}
