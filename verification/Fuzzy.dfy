/** Fuzzy matching: the characters of the query in order, not necessarily side by side. */
module Fuzzy {
  import opened Framing
  import opened Text

  predicate Increasing(places: seq<nat>) {
    forall j, k :: 0 <= j < k < |places| ==> places[j] < places[k]
  }

  /** `places` are places of the text, in order, that spell the query. */
  predicate Spells(query: string, text: string, places: seq<nat>) {
    && |places| == |query|
    && (forall k :: 0 <= k < |places| ==> places[k] < |text| && text[places[k]] == query[k])
    && Increasing(places)
  }

  ghost predicate Subsequence(query: string, text: string) {
    exists places: seq<nat> :: Spells(query, text, places)
  }

  /** The places found by taking each character as early as possible, from place `i` on. */
  function Earliest(query: string, text: string, i: nat): (r: Option<seq<nat>>)
    requires i <= |text|
    ensures r.Some? ==> |r.value| == |query| && forall k :: 0 <= k < |r.value| ==> i <= r.value[k] < |text|
    decreases |text| - i
  {
    if query == "" then Some([])
    else if i == |text| then None
    else if text[i] == query[0] then
      match Earliest(query[1..], text, i + 1)
      case None => None
      case Some(places) => Some([i] + places)
    else Earliest(query, text, i + 1)
  }

  lemma {:induction false} EarliestSpells(query: string, text: string, i: nat)
    requires i <= |text| && Earliest(query, text, i).Some?
    ensures Spells(query, text, Earliest(query, text, i).value)
    decreases |text| - i
  {
    if query != "" {
      if text[i] == query[0] {
        EarliestSpells(query[1..], text, i + 1);
      } else {
        EarliestSpells(query, text, i + 1);
      }
    }
  }

  /** No other way to spell the query comes earlier at any of its places. */
  lemma {:induction false} EarliestIsLeast(query: string, text: string, i: nat, places: seq<nat>)
    requires i <= |text| && Spells(query, text, places) && (places != [] ==> i <= places[0])
    ensures var r := Earliest(query, text, i);
            r.Some? && |r.value| == |places| && forall k :: 0 <= k < |places| ==> r.value[k] <= places[k]
    decreases |text| - i
  {
    if query != "" {
      if text[i] == query[0] {
        var rest := places[1..];
        assert Spells(query[1..], text, rest) by {
          forall k | 0 <= k < |rest| ensures text[rest[k]] == query[1..][k] {
            assert rest[k] == places[k + 1];
          }
        }
        EarliestIsLeast(query[1..], text, i + 1, rest);
      } else {
        EarliestIsLeast(query, text, i + 1, places);
      }
    }
  }

  /** Taking each character as early as possible finds a match whenever there is one. */
  lemma GreedyIsComplete(query: string, text: string)
    ensures Earliest(query, text, 0).Some? <==> Subsequence(query, text)
  {
    if Earliest(query, text, 0).Some? {
      EarliestSpells(query, text, 0);
      assert Spells(query, text, Earliest(query, text, 0).value);
    }
    if Subsequence(query, text) {
      var places: seq<nat> :| Spells(query, text, places);
      EarliestIsLeast(query, text, 0, places);
    }
  }

  lemma {:induction false} EarliestFits(query: string, text: string, i: nat)
    requires i <= |text|
    ensures Earliest(query, text, i).Some? ==> |query| <= |text| - i
    decreases |text| - i
  {
    if query != "" && i < |text| {
      if text[i] == query[0] {
        EarliestFits(query[1..], text, i + 1);
      } else {
        EarliestFits(query, text, i + 1);
      }
    }
  }

  // Scores. Lower is better.

  predicate Separates(c: char) {
    Blank(c) || c == '-' || c == '_' || c == '.' || c == '/' || c == ':'
  }

  /** How many matches in a row end at place `k`, not counting the first. A match at the very start of the
      text counts as following one. */
  function InARow(places: seq<nat>, k: nat): nat
    requires k < |places|
  {
    if k == 0 then (if places[0] == 0 then 1 else 0)
    else if places[k] == places[k - 1] + 1 then InARow(places, k - 1) + 1
    else 0
  }

  function Points(text: string, places: seq<nat>, k: nat): real
    requires k < |places| && places[k] < |text|
  {
    var run := InARow(places, k);
    (if run > 0 then -(run as real) * 5.0
     else if k > 0 then (places[k] as real - places[k - 1] as real - 1.0) * 2.0
     else 0.0)
    + (if places[k] == 0 || Separates(text[places[k] - 1]) then -10.0 else 0.0)
    + places[k] as real * 0.1
  }

  function Total(text: string, places: seq<nat>, n: nat): real
    requires n <= |places| && forall k :: 0 <= k < |places| ==> places[k] < |text|
  {
    if n == 0 then 0.0 else Total(text, places, n - 1) + Points(text, places, n - 1)
  }

  // What decides the score.

  /** What the length of a run means: the places before place `k` are neighbours, that many times; and before
      them comes a gap, or the text starts there and the first match counts as well. */
  lemma {:induction false} RunIs(places: seq<nat>, k: nat)
    requires k < |places| && Increasing(places)
    ensures var n := InARow(places, k);
            && n <= k + 1
            && (forall m :: 0 <= m <= k && k - n <= m ==> places[m] == places[k] - (k - m))
            && (n < k ==> places[k - n - 1] + 1 < places[k - n])
            && (n == k ==> places[0] > 0)
            && (n == k + 1 ==> places[0] == 0)
  {
    if k > 0 {
      RunIs(places, k - 1);
      assert places[k - 1] < places[k];
      if places[k] != places[k - 1] + 1 {
        assert places[k - 1] + 1 < places[k];
      }
    }
  }

  /** A match at the start of a word is better by 10 than the same match within a word. */
  lemma BoundaryIsWorthTen(a: string, b: string, places: seq<nat>, k: nat)
    requires k < |places| && 0 < places[k] < |a| && places[k] < |b|
    requires Separates(a[places[k] - 1]) && !Separates(b[places[k] - 1])
    ensures Points(a, places, k) == Points(b, places, k) - 10.0
  {
    hide InARow, Separates;
  }

  /** Of two ways to come to the same match, the one with the wider gap before it costs 2 for each further place. */
  lemma GapCostsTwo(text: string, a: seq<nat>, b: seq<nat>, k: nat)
    requires 0 < k < |a| && k < |b| && a[k] == b[k] < |text|
    requires a[k - 1] + 1 < a[k] && b[k - 1] + 1 < b[k]
    ensures Points(text, a, k) - Points(text, b, k) == (b[k - 1] as real - a[k - 1] as real) * 2.0
  {
    hide Separates;
  }

  /** A match that goes on with a run of `n` is better than the same match after a gap: by 5 for every match of
      the run, and by what the gap costs. */
  lemma RunBeatsGap(text: string, a: seq<nat>, b: seq<nat>, k: nat)
    requires 0 < k < |a| && k < |b| && a[k] == b[k] < |text|
    requires a[k - 1] + 1 == a[k] && b[k - 1] + 1 < b[k]
    ensures var n := InARow(a, k);
            n > 0 && Points(text, b, k) - Points(text, a, k)
                     == n as real * 5.0 + (b[k] as real - b[k - 1] as real - 1.0) * 2.0
    ensures Points(text, a, k) + 7.0 <= Points(text, b, k)
  {
    hide Separates;
    assert InARow(a, k) == InARow(a, k - 1) + 1;
    assert InARow(a, k) as real >= 1.0;
    assert b[k] as real - b[k - 1] as real - 1.0 >= 1.0;
  }

  /** The first match costs a tenth of its place, and is better by 10 at the start of a word, and by 5 more at
      the start of the text. */
  lemma FirstMatch(text: string, places: seq<nat>)
    requires places != [] && places[0] < |text|
    ensures Points(text, places, 0)
         == if places[0] == 0 then -15.0
            else places[0] as real * 0.1 - (if Separates(text[places[0] - 1]) then 10.0 else 0.0)
  {
    hide Separates;
  }

  function Span(i: nat, n: nat): (places: seq<nat>)
    ensures |places| == n && forall k :: 0 <= k < n ==> places[k] == i + k
  {
    seq(n, k requires 0 <= k < n => i + k)
  }

  lemma {:induction false} RunFromStart(n: nat, k: nat)
    requires k < n
    ensures InARow(Span(0, n), k) == k + 1
  {
    if k > 0 { RunFromStart(n, k - 1); }
  }

  lemma PrefixPoints(text: string, n: nat, k: nat)
    requires k < n <= |text| && (k > 0 ==> !Separates(text[k - 1]))
    ensures Points(text, Span(0, n), k) == (if k == 0 then -10.0 else 0.0) - (k as real + 1.0) * 5.0 + k as real * 0.1
  {
    hide Separates, InARow;
    RunFromStart(n, k);
  }

  lemma {:induction false} PrefixTotal(text: string, n: nat, k: nat)
    requires k <= n <= |text| && forall j :: 0 <= j < n - 1 ==> !Separates(text[j])
    ensures Total(text, Span(0, n), k)
         == (if k == 0 then 0.0 else -10.0) - (k * (k + 1)) as real * 2.5 + (k * (k - 1)) as real * 0.05
  {
    hide Separates, InARow, Points;
    if k > 0 {
      PrefixTotal(text, n, k - 1);
      PrefixPoints(text, n, k - 1);
      Squares(k);
    }
  }

  lemma Squares(k: nat)
    requires k > 0
    ensures (k * (k + 1)) as real == ((k - 1) * k) as real + k as real * 2.0
    ensures (k * (k - 1)) as real == ((k - 1) * (k - 2)) as real + (k as real - 1.0) * 2.0
  {
    assert k * (k + 1) == (k - 1) * k + 2 * k;
    assert k * (k - 1) == (k - 1) * (k - 2) + 2 * (k - 1);
  }

  lemma {:induction false} EarliestPrefix(query: string, text: string, i: nat)
    requires i + |query| <= |text| && text[i..i + |query|] == query
    ensures Earliest(query, text, i) == Some(Span(i, |query|))
  {
    if query != "" {
      assert text[i] == text[i..i + |query|][0];
      assert text[i + 1..i + |query|] == text[i..i + |query|][1..];
      EarliestPrefix(query[1..], text, i + 1);
      assert [i] + Span(i + 1, |query| - 1) == Span(i, |query|);
    }
  }

  datatype Match = Match(matches: bool, score: real)

  const NO_MATCH := Match(false, 0.0)

  /** The score of a query is that of its earliest places; a query that is the whole text is better by 100. */
  function Matched(query: string, text: string): Match {
    if query == "" then Match(true, 0.0)
    else
      match Earliest(query, text, 0)
      case None => NO_MATCH
      case Some(places) => Match(true, Total(text, places, |places|) - (if query == text then 100.0 else 0.0))
  }

  /** For instance a word that the text starts with: its score in closed form; being the whole text is worth 100. */
  lemma PrefixScore(query: string, text: string)
    requires query != "" && StartsWith(text, query)
    requires forall j :: 0 <= j < |query| - 1 ==> !Separates(query[j])
    ensures var n := |query|;
            Matched(query, text)
            == Match(true, -10.0 - (n * (n + 1)) as real * 2.5 + (n * (n - 1)) as real * 0.05
                           - (if query == text then 100.0 else 0.0))
  {
    hide Separates, Total, Earliest;
    var n := |query|;
    assert text[0..n] == query;
    EarliestPrefix(query, text, 0);
    forall j | 0 <= j < n - 1 ensures !Separates(text[j]) {
      assert text[j] == query[j];
    }
    PrefixTotal(text, n, n);
  }

  lemma {:induction false} TotalOfPrefix(text: string, a: seq<nat>, b: seq<nat>, n: nat)
    requires n <= |a| <= |b| && b[..|a|] == a
    requires forall k :: 0 <= k < |b| ==> b[k] < |text|
    ensures Total(text, a, n) == Total(text, b, n)
  {
    hide Points, InARow;
    if n > 0 {
      TotalOfPrefix(text, a, b, n - 1);
      InARowOfPrefix(a, b, n - 1);
      PointsSame(text, a, b, n - 1);
    }
  }

  lemma PointsSame(text: string, a: seq<nat>, b: seq<nat>, k: nat)
    requires k < |a| && k < |b| && a[k] == b[k] < |text| && (k > 0 ==> a[k - 1] == b[k - 1])
    requires InARow(a, k) == InARow(b, k)
    ensures Points(text, a, k) == Points(text, b, k)
  {
    hide InARow, Separates;
  }

  lemma InARowOfPrefix(a: seq<nat>, b: seq<nat>, k: nat)
    requires k < |a| <= |b| && b[..|a|] == a
    ensures InARow(a, k) == InARow(b, k) && a[k] == b[k] && (k > 0 ==> a[k - 1] == b[k - 1])
  {
    assert a[k] == b[k] && (k > 0 ==> a[k - 1] == b[k - 1]);
    if k > 0 { InARowOfPrefix(a, b, k - 1); }
  }

  /** What remains to be found from place `i` on, after `done`. */
  function Continues(done: seq<nat>, rest: Option<seq<nat>>): Option<seq<nat>> {
    match rest
    case None => None
    case Some(places) => Some(done + places)
  }

  /** The score of one more match, at place `i`. */
  method Award(text: string, i: nat, lastMatchIndex: int, before: nat, sum: real, ghost places: seq<nat>)
    returns (consecutiveMatches: nat, score: real)
    requires i < |text| && forall k :: 0 <= k < |places| ==> places[k] < i
    requires lastMatchIndex == if places == [] then -1 else places[|places| - 1]
    requires before == if places == [] then 0 else InARow(places, |places| - 1)
    requires sum == Total(text, places, |places|)
    ensures consecutiveMatches == InARow(places + [i], |places|)
    ensures score == Total(text, places + [i], |places| + 1)
  {
    ghost var more := places + [i];
    TotalOfPrefix(text, places, more, |places|);
    if |places| > 0 { InARowOfPrefix(places, more, |places| - 1); }
    score := sum;
    var isWordBoundary := i == 0 || Separates(text[i - 1]);
    if lastMatchIndex == i - 1 {
      consecutiveMatches := before + 1;
      score := score - consecutiveMatches as real * 5.0;
    } else {
      consecutiveMatches := 0;
      if lastMatchIndex >= 0 {
        score := score + (i - lastMatchIndex - 1) as real * 2.0;
      }
    }
    if isWordBoundary {
      score := score - 10.0;
    }
    score := score + i as real * 0.1;
  }

  method MatchQuery(query: string, text: string) returns (m: Match)
    ensures m == Matched(query, text)
    ensures m.matches <==> Subsequence(query, text)
  {
    hide Subsequence, Total, InARow;
    GreedyIsComplete(query, text);
    if |query| == 0 {
      return Match(true, 0.0);
    }
    EarliestFits(query, text, 0);
    if |query| > |text| {
      return NO_MATCH;
    }
    var queryIndex: nat, score, lastMatchIndex: int, consecutiveMatches: nat := 0, 0.0, -1, 0;
    var i: nat := 0;
    ghost var places: seq<nat> := [];
    assert query[0..] == query;
    NoPlaces(query, text);
    while i < |text| && queryIndex < |query|
      invariant i <= |text| && queryIndex == |places| <= |query|
      invariant forall k :: 0 <= k < |places| ==> places[k] < i
      invariant Earliest(query, text, 0) == Continues(places, Earliest(query[queryIndex..], text, i))
      invariant lastMatchIndex == if places == [] then -1 else places[|places| - 1]
      invariant consecutiveMatches == if places == [] then 0 else InARow(places, |places| - 1)
      invariant score == Total(text, places, |places|)
    {
      if text[i] == query[queryIndex] {
        consecutiveMatches, score := Award(text, i, lastMatchIndex, consecutiveMatches, score, places);
        StepOn(query, text, places, queryIndex, i);
        lastMatchIndex := i;
        queryIndex := queryIndex + 1;
        places := places + [i];
      }
      i := i + 1;
    }
    if queryIndex < |query| {
      return NO_MATCH;
    }
    assert places + [] == places;
    if query == text {
      score := score - 100.0;
    }
    return Match(true, score);
  }

  lemma NoPlaces(query: string, text: string)
    ensures Earliest(query, text, 0) == Continues([], Earliest(query, text, 0))
    ensures Total(text, [], 0) == 0.0
  {
    var r := Earliest(query, text, 0);
    if r.Some? { assert [] + r.value == r.value; }
  }

  lemma StepOn(query: string, text: string, places: seq<nat>, j: nat, i: nat)
    requires j < |query| && i < |text| && text[i] == query[j]
    ensures Continues(places, Earliest(query[j..], text, i))
            == Continues(places + [i], Earliest(query[j + 1..], text, i + 1))
  {
    assert query[j..][1..] == query[j + 1..];
    var rest := Earliest(query[j + 1..], text, i + 1);
    if rest.Some? {
      assert places + ([i] + rest.value) == (places + [i]) + rest.value;
    }
  }

  // Letters and digits in the other order.

  predicate Letters(s: string) {
    forall k :: 0 <= k < |s| ==> 'a' <= s[k] <= 'z'
  }

  /** The length of the letters, or of the digits, that the string starts with. */
  function Leading(s: string, letters: bool): (n: nat)
    ensures n <= |s| && (if letters then Letters(s[..n]) else Digits(s[..n]))
    ensures n < |s| ==> if letters then !('a' <= s[n] <= 'z') else !('0' <= s[n] <= '9')
  {
    if s != "" && (if letters then 'a' <= s[0] <= 'z' else '0' <= s[0] <= '9') then
      var n := Leading(s[1..], letters) + 1;
      assert s[..n] == [s[0]] + s[1..][..n - 1];
      n
    else 0
  }

  /** Letters followed by digits become digits followed by letters, and the other way about. */
  function Swapped(query: string): Option<string> {
    var n, d := Leading(query, true), Leading(query, false);
    if 0 < n < |query| && Digits(query[n..]) then Some(query[n..] + query[..n])
    else if 0 < d < |query| && Letters(query[d..]) then Some(query[d..] + query[..d])
    else None
  }

  lemma LeadingIs(s: string, n: nat, letters: bool)
    requires n <= |s| && (if letters then Letters(s[..n]) else Digits(s[..n]))
    requires n < |s| ==> if letters then !('a' <= s[n] <= 'z') else !('0' <= s[n] <= '9')
    ensures Leading(s, letters) == n
  {
    if n > 0 {
      assert s[..n][0] == s[0] && s[1..][..n - 1] == s[..n][1..];
      LeadingIs(s[1..], n - 1, letters);
    }
  }

  /** Letters and then digits, or digits and then letters. */
  predicate TwoRuns(query: string, n: nat) {
    && 0 < n < |query|
    && ((Letters(query[..n]) && Digits(query[n..])) || (Digits(query[..n]) && Letters(query[n..])))
  }

  lemma TwoRunsSwap(query: string, n: nat)
    requires TwoRuns(query, n)
    ensures Swapped(query) == Some(query[n..] + query[..n])
  {
    assert query[n..][0] == query[n] && query[..n][0] == query[0];
    LeadingIs(query, n, Letters(query[..n]));
  }

  /** Exactly the queries made of letters then digits, or digits then letters, have a swapped form, and it
      is the two parts in the other order. */
  lemma SwappedIff(query: string)
    ensures Swapped(query).Some? <==> exists n: nat :: TwoRuns(query, n)
    ensures forall n: nat :: TwoRuns(query, n) ==> Swapped(query) == Some(query[n..] + query[..n])
  {
    forall n: nat | TwoRuns(query, n) ensures Swapped(query) == Some(query[n..] + query[..n]) {
      TwoRunsSwap(query, n);
    }
    if Swapped(query).Some? {
      var l := Leading(query, true);
      assert TwoRuns(query, if 0 < l < |query| && Digits(query[l..]) then l else Leading(query, false));
    }
  }

  /** Swapping twice gives the query back. */
  lemma SwapTwice(query: string)
    requires Swapped(query).Some?
    ensures Swapped(Swapped(query).value) == Some(query)
  {
    var l, d, r := Leading(query, true), Leading(query, false), Swapped(query).value;
    var n := if 0 < l < |query| && Digits(query[l..]) then l else d;
    assert r == query[n..] + query[..n];
    var m := |query| - n;
    assert r[..m] == query[n..] && r[m..] == query[..n];
    assert r[m..] + r[..m] == query;
    TwoRunsSwap(r, m);
  }

  /** What a query scores against a text, both lower-cased. */
  function Fuzz(query: string, text: string): Match {
    var primary := Matched(query, text);
    if primary.matches || Swapped(query).None? then primary
    else
      var swapped := Matched(Swapped(query).value, text);
      if swapped.matches then Match(true, swapped.score + 5.0) else primary
  }

  method FuzzyMatch(query: string, text: string, lower: string -> string) returns (m: Match)
    ensures m == Fuzz(lower(query), lower(text))
    ensures m.matches <==> Occurs(lower(query), lower(text))
  {
    var queryLower, textLower := lower(query), lower(text);
    var primaryMatch := MatchQuery(queryLower, textLower);
    if primaryMatch.matches {
      return primaryMatch;
    }
    var swappedQuery := Swapped(queryLower);
    if swappedQuery.None? {
      return primaryMatch;
    }
    var swappedMatch := MatchQuery(swappedQuery.value, textLower);
    if !swappedMatch.matches {
      return primaryMatch;
    }
    return Match(true, swappedMatch.score + 5.0);
  }

  /** The swapped form is tried only if the query itself does not match, and costs 5. */
  lemma SwapCostsFive(query: string, text: string)
    ensures Matched(query, text).matches ==> Fuzz(query, text) == Matched(query, text)
    ensures !Matched(query, text).matches && Swapped(query).Some? && Matched(Swapped(query).value, text).matches ==>
              Fuzz(query, text) == Match(true, Matched(Swapped(query).value, text).score + 5.0)
  {
  }

  // Filtering and ranking a list.

  /** The words of a query: white space and slashes stand between them. */
  function Words(s: string, word: string): seq<string>
    decreases |s|
  {
    if s == "" then (if word == "" then [] else [word])
    else if Blank(s[0]) || s[0] == '/' then (if word == "" then [] else [word]) + Words(s[1..], "")
    else Words(s[1..], word + [s[0]])
  }

  function Tokens(query: string): seq<string> {
    Words(Trim(query), "")
  }

  predicate InWord(c: char) {
    !Blank(c) && c != '/'
  }

  /** What is read before a separator, a token unless it is empty, does not depend on what follows. */
  lemma {:induction false} WordsAppend(a: string, c: char, b: string, word: string)
    requires !InWord(c)
    ensures Words(a + [c] + b, word) == Words(a, word) + Words(b, "")
    decreases |a|
  {
    hide Blank;
    if a == "" {
      assert a + [c] + b == [c] + b && ([c] + b)[1..] == b;
    } else {
      assert (a + [c] + b)[1..] == a[1..] + [c] + b;
      if InWord(a[0]) {
        WordsAppend(a[1..], c, b, word + [a[0]]);
      } else {
        WordsAppend(a[1..], c, b, "");
        var w := if word == "" then [] else [word];
        assert w + (Words(a[1..], "") + Words(b, "")) == w + Words(a[1..], "") + Words(b, "");
      }
    }
  }

  lemma {:induction false} OneWord(s: string, word: string)
    requires forall k :: 0 <= k < |s| ==> InWord(s[k])
    ensures Words(s, word) == if word + s == "" then [] else [word + s]
  {
    hide Blank;
    if s == "" {
      assert word + s == word;
    } else {
      OneWord(s[1..], word + [s[0]]);
      assert word + [s[0]] + s[1..] == word + s;
    }
  }

  lemma {:induction false} BlanksHoldNoWord(s: string)
    requires Framing.AllBlank(s)
    ensures Words(s, "") == []
  {
    hide Blank;
    if s != "" { BlanksHoldNoWord(s[1..]); }
  }

  lemma {:induction false} BlanksInFront(s: string, rest: string)
    requires Framing.AllBlank(s)
    ensures Words(s + rest, "") == Words(rest, "")
  {
    hide Blank;
    if s == "" {
      assert s + rest == rest;
    } else {
      assert (s + rest)[1..] == s[1..] + rest;
      BlanksInFront(s[1..], rest);
    }
  }

  lemma BlanksBehind(s: string, rest: string)
    requires Framing.AllBlank(rest)
    ensures Words(s + rest, "") == Words(s, "")
  {
    hide Blank, Words;
    if rest == "" {
      assert s + rest == s;
    } else {
      WordsAppend(s, rest[0], rest[1..], "");
      assert s + [rest[0]] + rest[1..] == s + rest;
      BlanksHoldNoWord(rest[1..]);
    }
  }

  /** Trimming the query first changes nothing. */
  lemma TokensAreWords(query: string)
    ensures Tokens(query) == Words(query, "")
  {
    hide Blank, Words, Trim;
    var a, b := TrimStrips(query);
    assert query == query[..a] + (query[a..b] + query[b..]);
    BlanksInFront(query[..a], query[a..b] + query[b..]);
    BlanksBehind(query[a..b], query[b..]);
  }

  /** The tokens are what stands between white space and slashes: a query without these is one token, and the
      tokens on both sides of one of these are those of the two sides. */
  lemma TokensSplit(a: string, c: char, b: string)
    ensures !InWord(c) ==> Tokens(a + [c] + b) == Tokens(a) + Tokens(b)
    ensures a != "" && (forall k :: 0 <= k < |a| ==> InWord(a[k])) ==> Tokens(a) == [a]
    ensures Tokens("") == []
  {
    hide Blank, Words, Tokens, InWord;
    TokensAreWords(a + [c] + b);
    TokensAreWords(a);
    TokensAreWords(b);
    TokensAreWords("");
    if !InWord(c) { WordsAppend(a, c, b, ""); }
    if forall k :: 0 <= k < |a| ==> InWord(a[k]) { OneWord(a, ""); }
    OneWord("", "");
    assert "" + a == a && "" + "" == "";
  }

  /** Every token must match; the scores add up. */
  function FuzzAll(tokens: seq<string>, text: string, lower: string -> string): Match {
    if tokens == [] then Match(true, 0.0)
    else
      var before, last := FuzzAll(tokens[..|tokens| - 1], text, lower), Fuzz(lower(tokens[|tokens| - 1]), lower(text));
      if before.matches && last.matches then Match(true, before.score + last.score) else NO_MATCH
  }

  /** A failed token fails the rest. */
  lemma {:induction false} FailsAll(tokens: seq<string>, n: nat, text: string, lower: string -> string)
    requires n <= |tokens| && !FuzzAll(tokens[..n], text, lower).matches
    ensures FuzzAll(tokens, text, lower) == NO_MATCH
    decreases |tokens|
  {
    if n < |tokens| {
      assert tokens[..|tokens| - 1][..n] == tokens[..n];
      FailsAll(tokens[..|tokens| - 1], n, text, lower);
    } else {
      assert tokens[..n] == tokens;
    }
  }

  /** The scores of the tokens add up, whichever way the tokens are grouped. */
  lemma {:induction false} ScoresAddUp(a: seq<string>, b: seq<string>, text: string, lower: string -> string)
    ensures var m, n := FuzzAll(a, text, lower), FuzzAll(b, text, lower);
            FuzzAll(a + b, text, lower) == if m.matches && n.matches then Match(true, m.score + n.score) else NO_MATCH
    ensures |b| == 1 ==> FuzzAll(b, text, lower) == Fuzz(lower(b[0]), lower(text))
  {
    hide Fuzz;
    if b == [] {
      assert a + b == a;
      NoMatchScoresNothing(a, text, lower);
    } else {
      var front, last := b[..|b| - 1], b[|b| - 1];
      ScoresAddUp(a, front, text, lower);
      assert (a + b)[..|a + b| - 1] == a + front;
      FailedFuzz(lower(last), lower(text));
    }
  }

  lemma NoMatchScoresNothing(tokens: seq<string>, text: string, lower: string -> string)
    ensures FuzzAll(tokens, text, lower).matches || FuzzAll(tokens, text, lower) == NO_MATCH
  {
  }

  lemma FailedFuzz(query: string, text: string)
    ensures Fuzz(query, text).matches || Fuzz(query, text) == NO_MATCH
  {
  }

  method MatchTokens(tokens: seq<string>, text: string, lower: string -> string) returns (m: Match)
    ensures m == FuzzAll(tokens, text, lower)
  {
    var totalScore, n := 0.0, 0;
    while n < |tokens|
      invariant n <= |tokens| && FuzzAll(tokens[..n], text, lower) == Match(true, totalScore)
    {
      assert tokens[..n + 1][..n] == tokens[..n];
      var match1 := FuzzyMatch(tokens[n], text, lower);
      if match1.matches {
        totalScore := totalScore + match1.score;
      } else {
        FailsAll(tokens, n + 1, text, lower);
        return NO_MATCH;
      }
      n := n + 1;
    }
    assert tokens[..n] == tokens;
    return Match(true, totalScore);
  }

  datatype Ranked<T> = Ranked(item: T, score: real)

  /** The items every token matches, with their scores, in the order of the list. */
  function Hits<T>(items: seq<T>, tokens: seq<string>, getText: T -> string, lower: string -> string): seq<Ranked<T>> {
    if items == [] then []
    else
      var before, last := Hits(items[..|items| - 1], tokens, getText, lower), items[|items| - 1];
      var m := FuzzAll(tokens, getText(last), lower);
      if m.matches then before + [Ranked(last, m.score)] else before
  }

  /** Puts an item behind those that are as good or better. */
  function Insert<T>(sorted: seq<Ranked<T>>, r: Ranked<T>): (s: seq<Ranked<T>>) {
    if sorted == [] || sorted[|sorted| - 1].score <= r.score then sorted + [r]
    else Insert(sorted[..|sorted| - 1], r) + [sorted[|sorted| - 1]]
  }

  /** Sorting by score, items of equal score keeping their order, as the built-in sort does. */
  function SortByScore<T>(results: seq<Ranked<T>>): seq<Ranked<T>> {
    if results == [] then [] else Insert(SortByScore(results[..|results| - 1]), results[|results| - 1])
  }

  predicate Ordered<T>(results: seq<Ranked<T>>) {
    forall j, k :: 0 <= j < k < |results| ==> results[j].score <= results[k].score
  }

  /** The results of one score, in order. */
  function OfScore<T>(results: seq<Ranked<T>>, score: real): seq<Ranked<T>> {
    if results == [] then []
    else
      var before := OfScore(results[..|results| - 1], score);
      if results[|results| - 1].score == score then before + [results[|results| - 1]] else before
  }

  lemma {:induction false} InsertKeeps<T>(sorted: seq<Ranked<T>>, r: Ranked<T>)
    ensures multiset(Insert(sorted, r)) == multiset(sorted) + multiset{r}
  {
    if sorted != [] && sorted[|sorted| - 1].score > r.score {
      InsertKeeps(sorted[..|sorted| - 1], r);
      assert sorted == sorted[..|sorted| - 1] + [sorted[|sorted| - 1]];
    }
  }

  lemma {:induction false} InsertOrdered<T>(sorted: seq<Ranked<T>>, r: Ranked<T>)
    requires Ordered(sorted)
    ensures Ordered(Insert(sorted, r))
  {
    if sorted != [] && sorted[|sorted| - 1].score > r.score {
      var front, last := sorted[..|sorted| - 1], sorted[|sorted| - 1];
      InsertOrdered(front, r);
      InsertKeeps(front, r);
      forall k | 0 <= k < |Insert(front, r)| ensures Insert(front, r)[k].score <= last.score {
        assert Insert(front, r)[k] in multiset(front) + multiset{r};
      }
    }
  }

  lemma OfScorePush<T>(results: seq<Ranked<T>>, r: Ranked<T>, score: real)
    ensures OfScore(results + [r], score) == if r.score
            == score then OfScore(results, score) + [r] else OfScore(results, score)
  {
    assert (results + [r])[..|results|] == results;
  }

  lemma {:induction false} InsertStable<T>(sorted: seq<Ranked<T>>, r: Ranked<T>, score: real)
    ensures OfScore(Insert(sorted, r), score) == OfScore(sorted + [r], score)
  {
    if sorted != [] && sorted[|sorted| - 1].score > r.score {
      var front, last := sorted[..|sorted| - 1], sorted[|sorted| - 1];
      InsertStable(front, r, score);
      OfScorePush(front, r, score);
      OfScorePush(Insert(front, r), last, score);
      OfScorePush(sorted, r, score);
    }
  }

  /** The sort orders by score, keeps every result, and keeps the order of results of equal score. */
  lemma {:induction false} SortIsStable<T>(results: seq<Ranked<T>>, score: real)
    ensures Ordered(SortByScore(results)) && multiset(SortByScore(results)) == multiset(results)
    ensures OfScore(SortByScore(results), score) == OfScore(results, score)
  {
    if results != [] {
      var front, last := results[..|results| - 1], results[|results| - 1];
      assert results == front + [last];
      SortIsStable(front, score);
      InsertOrdered(SortByScore(front), last);
      InsertKeeps(SortByScore(front), last);
      InsertStable(SortByScore(front), last, score);
      OfScorePush(SortByScore(front), last, score);
      OfScorePush(front, last, score);
    }
  }

  function Items<T>(results: seq<Ranked<T>>): (r: seq<T>)
    ensures |r| == |results| && forall k :: 0 <= k < |r| ==> r[k] == results[k].item
  {
    seq(|results|, k requires 0 <= k < |results| => results[k].item)
  }

  /** Every hit is an item all tokens match, with its score, and every such item is a hit. */
  lemma {:induction false} HitsAreExact<T>(items: seq<T>, tokens: seq<string>, getText: T -> string,
                                           lower: string -> string, r: Ranked<T>)
    ensures r in Hits(items, tokens, getText, lower) <==>
      r.item in items && FuzzAll(tokens, getText(r.item), lower) == Match(true, r.score)
  {
    if items != [] {
      var front, last := items[..|items| - 1], items[|items| - 1];
      assert items == front + [last];
      HitsAreExact(front, tokens, getText, lower, r);
    }
  }

  /** The query, or its form with letters and digits swapped, is in the text. */
  ghost predicate Occurs(query: string, text: string) {
    Subsequence(query, text) || (Swapped(query).Some? && Subsequence(Swapped(query).value, text))
  }

  ghost predicate EveryTokenOccurs(tokens: seq<string>, text: string, lower: string -> string) {
    forall k :: 0 <= k < |tokens| ==> Occurs(lower(tokens[k]), lower(text))
  }

  lemma FuzzIff(query: string, text: string)
    ensures Fuzz(query, text).matches <==> Occurs(query, text)
  {
    GreedyIsComplete(query, text);
    if Swapped(query).Some? { GreedyIsComplete(Swapped(query).value, text); }
    hide Subsequence, Earliest, Swapped;
  }

  lemma {:induction false} FuzzAllIff(tokens: seq<string>, text: string, lower: string -> string)
    ensures FuzzAll(tokens, text, lower).matches <==> EveryTokenOccurs(tokens, text, lower)
  {
    if tokens != [] {
      hide Occurs, Fuzz;
      FuzzAllIff(tokens[..|tokens| - 1], text, lower);
      FuzzIff(lower(tokens[|tokens| - 1]), lower(text));
    }
  }

  /** With no token the list is returned as it is; else the hits, best first. */
  method FuzzyFilter<T>(items: seq<T>, query: string, getText: T -> string, lower: string -> string) returns (r: seq<T>)
    ensures Tokens(query) == [] ==> r == items
    ensures Tokens(query) != [] ==> r == Items(SortByScore(Hits(items, Tokens(query), getText, lower)))
  {
    if Trim(query) == "" {
      return items;
    }
    var tokens := Tokens(query);
    if |tokens| == 0 {
      return items;
    }
    var results: seq<Ranked<T>>, n := [], 0;
    while n < |items|
      invariant n <= |items| && results == Hits(items[..n], tokens, getText, lower)
    {
      assert items[..n + 1][..n] == items[..n];
      var m := MatchTokens(tokens, getText(items[n]), lower);
      if m.matches {
        results := results + [Ranked(items[n], m.score)];
      }
      n := n + 1;
    }
    assert items[..n] == items;
    return Items(SortByScore(results));
  }

  /** What the filter returns: exactly the items that every token matches, in order of total score. */
  lemma FilterIsExact<T>(items: seq<T>, tokens: seq<string>, getText: T -> string, lower: string -> string)
    ensures var results := SortByScore(Hits(items, tokens, getText, lower));
            && Ordered(results)
            && (forall k :: 0 <= k < |results| ==>
                FuzzAll(tokens, getText(results[k].item), lower) == Match(true, results[k].score))
            && (forall x :: x in Items(results) <==> x in items && EveryTokenOccurs(tokens, getText(x), lower))
  {
    var hits := Hits(items, tokens, getText, lower);
    var results := SortByScore(hits);
    SortIsStable(hits, 0.0);
    hide Hits, SortByScore, EveryTokenOccurs, FuzzAll;
    forall k | 0 <= k < |results|
      ensures FuzzAll(tokens, getText(results[k].item), lower) == Match(true, results[k].score)
              && results[k].item in items
    {
      assert results[k] in multiset(results);
      assert results[k] in hits;
      HitsAreExact(items, tokens, getText, lower, results[k]);
    }
    forall x ensures x in Items(results) <==> x in items && EveryTokenOccurs(tokens, getText(x), lower) {
      FuzzAllIff(tokens, getText(x), lower);
      if x in Items(results) {
        var k :| 0 <= k < |results| && Items(results)[k] == x;
        assert FuzzAll(tokens, getText(results[k].item), lower).matches;
      }
      if x in items && EveryTokenOccurs(tokens, getText(x), lower) {
        var r := Ranked(x, FuzzAll(tokens, getText(x), lower).score);
        HitsAreExact(items, tokens, getText, lower, r);
        assert r in multiset(results);
        var k :| 0 <= k < |results| && results[k] == r;
        assert Items(results)[k] == x;
      }
    }
  }
}
