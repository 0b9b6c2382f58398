/** Terminal input in which key text and bracketed pastes alternate, cut into any chunks. */
module StdinStreams {
  import opened StdinBuffers
  import opened StdinChunks
  import opened StdinEvents
  import opened Text

  /** The key text since the last paste, unless a paste is under way. */
  function Open(input: string): Option<string>
    decreases |input|
  {
    match IndexOf(input, PASTE_START)
    case None => Some(input)
    case Some(start) =>
      var text := input[start + |PASTE_START|..];
      match IndexOf(text, PASTE_END)
      case None => None
      case Some(end) => Open(text[end + |PASTE_END|..])
  }

  /** The cut is not between two escapes and what the second one opens; nor is it inside a start marker of which
      the input before the cut has been emitted as a key, as the rest of an incomplete sequence. */
  predicate CleanKeys(keys: string, chunk: string) {
    && !CutAfterTwoEscapes(Split(keys), chunk)
    && match IndexOf(keys + chunk, PASTE_START)
       case None => true
       case Some(start) => start < |keys| ==> Split(keys).sequences == Split(keys[..start]).sequences
  }

  /** Inside a paste every cut will do. */
  predicate CleanCut(input: string, chunk: string) {
    match Open(input)
    case None => true
    case Some(keys) => CleanKeys(keys, chunk)
  }

  /** What input gives in one chunk; no input gives nothing. */
  function From(pending: Option<int>, input: string): Output {
    if input == "" then Output(Idle(pending), []) else Process(Idle(pending), input)
  }

  function Then(before: Output, chunk: string): Output {
    var after := Process(before.state, chunk);
    Output(after.state, before.events + after.events)
  }

  lemma MatchesInPrefix(s: string, more: string, pattern: string, k: int)
    requires k + |pattern| <= |s|
    ensures MatchesAt(s + more, pattern, k) == MatchesAt(s, pattern, k)
  {
    if 0 <= k {
      assert (s + more)[k..k + |pattern|] == s[k..k + |pattern|];
    }
  }

  lemma MatchesInSuffix(front: string, s: string, pattern: string, k: nat)
    ensures MatchesAt(front + s, pattern, |front| + k) == MatchesAt(s, pattern, k)
  {
    if k + |pattern| <= |s| {
      assert (front + s)[|front| + k..|front| + k + |pattern|] == s[k..k + |pattern|];
    }
  }

  lemma IndexExtends(s: string, more: string, pattern: string)
    requires IndexOf(s, pattern).Some?
    ensures IndexOf(s + more, pattern) == IndexOf(s, pattern)
  {
    hide IndexOf;
    var i := IndexOf(s, pattern).value;
    forall k | 0 <= k <= i ensures MatchesAt(s + more, pattern, k) == MatchesAt(s, pattern, k) {
      MatchesInPrefix(s, more, pattern, k);
    }
  }

  lemma IndexInSuffix(front: string, s: string, pattern: string)
    requires IndexOf(front + s, pattern).Some? && |front| <= IndexOf(front + s, pattern).value
    ensures IndexOf(s, pattern) == Some(IndexOf(front + s, pattern).value - |front|)
  {
    hide IndexOf;
    var i := IndexOf(front + s, pattern).value - |front|;
    MatchesInSuffix(front, s, pattern, i);
    assert MatchesAt(s, pattern, i);
    var first := IndexOf(s, pattern).value;
    MatchesInSuffix(front, s, pattern, first);
  }

  // Key text.

  lemma KeysFrom(pending: Option<int>, keys: string)
    requires NoPasteStart(keys)
    ensures From(pending, keys) == Whole(pending, keys)
  {
    if keys != "" {
      OneChunk(pending, keys);
    }
  }

  lemma MarkerWithin(keys: string, chunk: string, start: nat)
    requires MatchesAt(keys + chunk, PASTE_START, start)
    ensures start + |PASTE_START| <= |keys| ==> MatchesAt(keys, PASTE_START, start)
  {
    if start + |PASTE_START| <= |keys| {
      assert keys[start..start + |PASTE_START|] == (keys + chunk)[start..start + |PASTE_START|];
    }
  }

  /** A marker that begins before the cut begins there with its first characters. */
  lemma MarkerBegins(keys: string, chunk: string, start: nat)
    requires NoPasteStart(keys) && IndexOf(keys + chunk, PASTE_START) == Some(start) && start < |keys|
    ensures 0 < |keys| - start < |PASTE_START| && keys[start..] == PASTE_START[..|keys| - start]
  {
    hide IndexOf;
    MarkerWithin(keys, chunk, start);
    assert !MatchesAt(keys, PASTE_START, start);
    var all := keys + chunk;
    assert keys[start..] == all[start..start + |PASTE_START|][..|keys| - start];
  }

  /** The key text before a marker that is under way keeps its pieces; the marker so far is held back. */
  lemma MarkerIsHeldBack(keys: string, n: nat)
    requires Split(keys).remainder == "" && 0 < n < |PASTE_START|
    ensures Split(keys + PASTE_START[..n]) == Pieces(Split(keys).sequences, PASTE_START[..n])
  {
    hide FirstPiece;
    SplitOfParts(keys, PASTE_START[..n]);
    StartMarkerHeldBack(n);
    assert "" + PASTE_START[..n] == PASTE_START[..n];
    assert Split(keys).sequences + [] == Split(keys).sequences;
  }

  /** The pieces before a start marker, if the input up to the cut was split first. */
  lemma SplitUpTo(keys: string, chunk: string, start: nat)
    requires NoPasteStart(keys) && CleanKeys(keys, chunk) && IndexOf(keys + chunk, PASTE_START) == Some(start)
    ensures var first := Split(keys);
            var gone := |keys| - |first.remainder|;
            && 0 <= gone <= start && keys[gone..] == first.remainder
            && Split((keys + chunk)[..start]).sequences
               == first.sequences + Split((first.remainder + chunk)[..start - gone]).sequences
  {
    hide FirstPiece, IndexOf, Split, CutAfterTwoEscapes;
    RemainderLast(keys);
    if start < |keys| {
      SplitInMarker(keys, chunk, start);
    } else {
      SplitAfterCut(keys, chunk, start);
    }
  }

  lemma RemainderLast(keys: string)
    ensures var r := Split(keys).remainder; |r| <= |keys| && keys[|keys| - |r|..] == r
  {
    hide Split;
    SplitIsLossless(keys);
  }

  lemma RemainderIsHeldBack(data: string)
    ensures Split(Split(data).remainder).sequences == []
  {
    hide FirstPiece;
    SplitOfParts(data, "");
    assert data + "" == data && Split(data).remainder + "" == Split(data).remainder;
  }

  /** The input up to a cut in a start marker: nothing of the marker has been emitted. */
  lemma NothingOfMarker(keys: string, start: nat)
    requires start < |keys| && keys[start] == ESC && Split(keys).sequences == Split(keys[..start]).sequences
    ensures Split(keys).remainder == Split(keys[..start]).remainder + keys[start..]
  {
    hide FirstPiece, Split;
    var before, m := keys[..start], keys[start..];
    assert keys == before + m;
    SplitOfParts(before, m);
    SplitIsLossless(Split(before).remainder + m);
    assert Flatten([]) + Split(keys).remainder == Split(keys).remainder;
  }

  lemma SplitInMarker(keys: string, chunk: string, start: nat)
    requires NoPasteStart(keys) && IndexOf(keys + chunk, PASTE_START) == Some(start) && start < |keys|
    requires Split(keys).sequences == Split(keys[..start]).sequences
    ensures var first := Split(keys);
            var gone := |keys| - |first.remainder|;
            && gone <= start
            && Split((keys + chunk)[..start]).sequences
               == first.sequences + Split((first.remainder + chunk)[..start - gone]).sequences
  {
    hide FirstPiece, IndexOf, Split, NoPasteStart;
    MarkerBegins(keys, chunk, start);
    NothingOfMarker(keys, start);
    RemainderLast(keys);
    var before := Split(keys[..start]).remainder;
    RemainderIsHeldBack(keys[..start]);
    assert (keys + chunk)[..start] == keys[..start] && (Split(keys).remainder + chunk)[..|before|] == before;
    assert Split(keys).sequences + [] == Split(keys).sequences;
  }

  lemma SplitAfterCut(keys: string, chunk: string, start: nat)
    requires |keys| <= start <= |keys + chunk| && !CutAfterTwoEscapes(Split(keys), chunk)
    requires |Split(keys).remainder| <= |keys|
    ensures var first := Split(keys);
            Split((keys + chunk)[..start]).sequences
            == first.sequences + Split((first.remainder + chunk)[..start - (|keys| - |first.remainder|)]).sequences
  {
    hide FirstPiece, Split;
    var first, b := Split(keys), chunk[..start - |keys|];
    assert (keys + chunk)[..start] == keys + b;
    assert (first.remainder + chunk)[..start - (|keys| - |first.remainder|)] == first.remainder + b;
    SplitOfParts(keys, b);
    assert b != "" ==> b[0] == chunk[0];
  }

  lemma ComposeStart(pending: Option<int>, keys: string, chunk: string, start: nat)
    requires NoPasteStart(keys) && CleanKeys(keys, chunk) && chunk != ""
    requires IndexOf(keys + chunk, PASTE_START) == Some(start)
    ensures Then(Whole(pending, keys), chunk) == Process(Idle(pending), keys + chunk)
  {
    hide Split, EmitAll, TakePaste, IndexOf, Process, CleanKeys, NoPasteStart;
    SplitUpTo(keys, chunk, start);
    var first := Split(keys);
    var gone := |keys| - |first.remainder|;
    RestAfterCut(keys, chunk, gone, first.remainder, start);
    EmitAllAppend(pending, first.sequences, Split((first.remainder + chunk)[..start - gone]).sequences);
    var e := EmitAll(pending, first.sequences);
    BeginsPaste(State(first.remainder, false, "", e.pending), chunk, start - gone);
    assert "" + (keys + chunk) == keys + chunk;
    BeginsPaste(Idle(pending), keys + chunk, start);
    Grouped(e.events, EmitAll(e.pending, Split((first.remainder + chunk)[..start - gone]).sequences).events,
            TakePaste(State("", true, (keys + chunk)[start + |PASTE_START|..], None)).events);
  }

  lemma Grouped(a: seq<Event>, b: seq<Event>, c: seq<Event>)
    ensures a + (b + c) == a + b + c
  {
  }

  lemma RestAfterCut(keys: string, chunk: string, gone: nat, remainder: string, start: nat)
    requires gone <= start && gone <= |keys| && keys[gone..] == remainder
    requires IndexOf(keys + chunk, PASTE_START) == Some(start)
    ensures var rest := remainder + chunk;
            && IndexOf(rest, PASTE_START) == Some(start - gone)
            && rest[start - gone + |PASTE_START|..] == (keys + chunk)[start + |PASTE_START|..]
  {
    hide IndexOf;
    assert keys + chunk == keys[..gone] + (remainder + chunk);
    IndexInSuffix(keys[..gone], remainder + chunk, PASTE_START);
  }

  lemma BeginsPaste(st: State, chunk: string, start: nat)
    requires !st.pasteMode && chunk != "" && IndexOf(st.buffer + chunk, PASTE_START) == Some(start)
    ensures var buffer := st.buffer + chunk;
            var before := EmitAll(st.pending, Split(buffer[..start]).sequences);
            var rest := TakePaste(State("", true, buffer[start + |PASTE_START|..], None));
            Process(st, chunk) == Output(rest.state, before.events + rest.events)
  {
    hide Split, EmitAll, TakePaste, IndexOf;
  }

  lemma ComposeKeys(pending: Option<int>, keys: string, chunk: string)
    requires NoPasteStart(keys) && CleanKeys(keys, chunk) && chunk != ""
    ensures Then(From(pending, keys), chunk) == From(pending, keys + chunk)
  {
    hide Process, Split, IndexOf, Whole;
    KeysFrom(pending, keys);
    match IndexOf(keys + chunk, PASTE_START) {
      case None =>
        NextChunk(pending, keys, chunk);
        KeysFrom(pending, keys + chunk);
      case Some(start) =>
        ComposeStart(pending, keys, chunk, start);
    }
  }

  // Pastes.

  lemma ComposeTaken(text: string, chunk: string)
    requires chunk != ""
    requires var end := IndexOf(text, PASTE_END);
             end.Some? ==> CleanCut(text[end.value + |PASTE_END|..], chunk)
    ensures Then(TakePaste(State("", true, text, None)), chunk) == TakePaste(State("", true, text + chunk, None))
    decreases |text|, 0
  {
    hide Process, IndexOf, CleanCut;
    match IndexOf(text, PASTE_END) {
      case None =>
        TextChunk(text, chunk);
        var taken := TakePaste(State("", true, text + chunk, None));
        assert [] + taken.events == taken.events;
      case Some(end) =>
        IndexExtends(text, chunk, PASTE_END);
        var remaining := text[end + |PASTE_END|..];
        assert (text + chunk)[..end] == text[..end];
        assert (text + chunk)[end + |PASTE_END|..] == remaining + chunk;
        Compose(None, remaining, chunk);
        var more := From(None, remaining);
        var last := Process(more.state, chunk);
        assert [Paste(text[..end])] + more.events + last.events == [Paste(text[..end])] + (more.events + last.events);
    }
  }

  /** One more chunk after a clean cut: the same as if it had come with the input before it. */
  lemma Compose(pending: Option<int>, input: string, chunk: string)
    requires chunk != "" && CleanCut(input, chunk)
    ensures Then(From(pending, input), chunk) == From(pending, input + chunk)
    decreases |input|, 1
  {
    hide CleanKeys, IndexOf, Process, TakePaste;
    match IndexOf(input, PASTE_START) {
      case None =>
        ComposeKeys(pending, input, chunk);
      case Some(start) =>
        ComposeTaken(input[start + |PASTE_START|..], chunk);
        ComposePaste(pending, input, chunk, start);
    }
  }

  lemma ComposePaste(pending: Option<int>, input: string, chunk: string, start: nat)
    requires chunk != "" && IndexOf(input, PASTE_START) == Some(start)
    requires var text := input[start + |PASTE_START|..];
             Then(TakePaste(State("", true, text, None)), chunk) == TakePaste(State("", true, text + chunk, None))
    ensures Then(From(pending, input), chunk) == From(pending, input + chunk)
  {
    hide Process, TakePaste, EmitAll, Split, IndexOf;
    IndexExtends(input, chunk, PASTE_START);
    var text := input[start + |PASTE_START|..];
    assert (input + chunk)[..start] == input[..start];
    assert (input + chunk)[start + |PASTE_START|..] == text + chunk;
    assert "" + input == input && "" + (input + chunk) == input + chunk;
    BeginsPaste(Idle(pending), input, start);
    BeginsPaste(Idle(pending), input + chunk, start);
    var taken := TakePaste(State("", true, text, None));
    Grouped(EmitAll(pending, Split(input[..start]).sequences).events, taken.events, Process(taken.state, chunk).events);
  }

  predicate CleanCuts(chunks: seq<string>) {
    AllNonEmpty(chunks) && forall k :: 0 <= k < |chunks| ==> CleanCut(Flatten(chunks[..k]), chunks[k])
  }

  /** Keys and pastes, cut into any chunks by clean cuts: the events and the state are those of one chunk. */
  lemma {:induction false} StreamInvariance(pending: Option<int>, chunks: seq<string>)
    requires CleanCuts(chunks)
    ensures ProcessAll(Idle(pending), chunks) == From(pending, Flatten(chunks))
  {
    hide Process, CleanCut;
    if chunks != [] {
      var n := |chunks| - 1;
      var front := chunks[..n];
      forall k | 0 <= k < n ensures CleanCut(Flatten(front[..k]), front[k]) {
        assert front[..k] == chunks[..k];
      }
      StreamInvariance(pending, front);
      Compose(pending, Flatten(front), chunks[n]);
    }
  }

  // Every other cut changes the events.

  ghost predicate DifferAt(a: seq<Event>, b: seq<Event>, n: nat) {
    n < |a| && (n < |b| ==> a[n] != b[n])
  }

  lemma NoPrefix(a: seq<Event>, b: seq<Event>, n: nat)
    requires DifferAt(a, b, n)
    ensures !(a <= b)
  {
  }

  /** At a cut between two escapes and what the second one opens. */
  lemma TwoEscapesDiffer(pending: Option<int>, keys: string, b: string, more: seq<Event>) returns (n: nat)
    requires pending.Some? ==> pending.value >= 32
    requires CutAfterTwoEscapes(Split(keys), b)
    ensures DifferAt(Whole(pending, keys).events, Whole(pending, keys + b).events + more, n)
  {
    hide EmitAll, FirstPiece;
    var first, whole := Split(keys).sequences, Split(keys + b).sequences;
    SplitOfParts(keys, b);
    EventOfPiece(pending, first, |first| - 1);
    EventOfPiece(pending, whole, |first| - 1);
    n := |EmitAll(pending, first[..|first| - 1]).events|;
  }

  /** What a paste or the wait for its end adds is no key. */
  lemma PasteComesFirst(text: string)
    ensures var events := TakePaste(State("", true, text, None)).events; events == [] || events[0].Paste?
  {
    hide Process, IndexOf;
  }

  /** A piece that starts with an escape is emitted. */
  lemma EscapeIsEmitted(pending: Option<int>, pieces: seq<string>)
    requires pending.Some? ==> pending.value >= 32
    requires pieces != [] && pieces[0] != "" && pieces[0][0] == ESC
    ensures var events := EmitAll(pending, pieces).events; events != [] && events[0] == Data(pieces[0])
  {
    hide EmitAll, KittyCodepoint;
    var none: seq<string> := [];
    assert pieces == [pieces[0]] + pieces[1..] && none + [pieces[0]] == [pieces[0]];
    EmitAllPush(pending, none, pieces[0]);
    NothingEmitted(pending);
    EmitAllAppend(pending, [pieces[0]], pieces[1..]);
  }

  /** A sequence that takes in a start marker under way begins with an escape. */
  lemma MarkerTaken(keys: string, start: nat) returns (pieces: seq<string>)
    requires start < |keys| && keys[start] == ESC && keys[start..] <= PASTE_START && keys[start..] != PASTE_START
    requires Split(keys).sequences != Split(keys[..start]).sequences
    ensures Split(keys).sequences == Split(keys[..start]).sequences + pieces
    ensures pieces != [] && pieces[0] != "" && pieces[0][0] == ESC
  {
    hide FirstPiece, Split;
    var before, m := keys[..start], keys[start..];
    assert keys == before + m && m == PASTE_START[..|m|];
    SplitOfParts(before, m);
    var r0 := Split(before).remainder;
    pieces := Split(r0 + m).sequences;
    StartMarkerHeldBack(|m|);
    assert "" + m == m && Split(before).sequences + [] == Split(before).sequences;
    SplitIsLossless(before);
    FirstOf(r0 + m);
  }

  lemma FirstOf(data: string)
    ensures var pieces := Split(data).sequences;
            pieces != [] ==> pieces[0] != "" && data != "" && pieces[0][0] == data[0]
  {
  }

  lemma MarkerDiffers(pending: Option<int>, keys: string, start: nat, taken: seq<Event>) returns (n: nat)
    requires pending.Some? ==> pending.value >= 32
    requires start < |keys| && keys[start] == ESC && keys[start..] <= PASTE_START && keys[start..] != PASTE_START
    requires Split(keys).sequences != Split(keys[..start]).sequences
    requires taken == [] || taken[0].Paste?
    ensures DifferAt(Whole(pending, keys).events, EmitAll(pending, Split(keys[..start]).sequences).events + taken, n)
  {
    hide EmitAll, Split;
    var pieces := MarkerTaken(keys, start);
    var before := EmitAll(pending, Split(keys[..start]).sequences);
    EmitAllAppend(pending, Split(keys[..start]).sequences, pieces);
    EscapeIsEmitted(before.pending, pieces);
    n := |before.events|;
  }

  /** Two escapes before a cut in a start marker take in its first character. */
  lemma CutInMarker(keys: string, chunk: string, start: nat)
    requires start < |keys| && keys[start] == ESC && CutAfterTwoEscapes(Split(keys), chunk)
    ensures Split(keys).sequences != Split(keys[..start]).sequences
  {
    hide Split;
    if Split(keys).sequences == Split(keys[..start]).sequences {
      NothingOfMarker(keys, start);
    }
  }

  lemma KeysDiffer(pending: Option<int>, keys: string, chunk: string, all: string) returns (n: nat)
    requires pending.Some? ==> pending.value >= 32
    requires NoPasteStart(keys) && !CleanKeys(keys, chunk) && chunk != "" && keys + chunk <= all
    ensures DifferAt(From(pending, keys).events, From(pending, all).events, n)
  {
    hide Split, IndexOf, Process, TakePaste, EmitAll, CutAfterTwoEscapes, DifferAt, NoPasteStart, CleanKeys;
    KeysFrom(pending, keys);
    var b := all[|keys|..];
    KeysAndMore(keys, chunk, all);
    SameFirst(keys, chunk, b);
    WhyBad(keys, chunk, all);
    match IndexOf(all, PASTE_START) {
      case None =>
        KeysFrom(pending, all);
        n := TwoEscapesDiffer(pending, keys, b, []);
        assert Whole(pending, all).events + [] == Whole(pending, all).events;
      case Some(start) =>
        assert "" + all == all;
        BeginsPaste(Idle(pending), all, start);
        PasteComesFirst(all[start + |PASTE_START|..]);
        var taken := TakePaste(State("", true, all[start + |PASTE_START|..], None)).events;
        if start < |keys| {
          BadInMarker(keys, chunk, all, start);
          n := MarkerDiffers(pending, keys, start, taken);
          assert all[..start] == keys[..start];
        } else {
          var c := b[..start - |keys|];
          MarkerIsNoOpener(keys, all, start);
          SameFirst(keys, b, c);
          n := TwoEscapesDiffer(pending, keys, c, taken);
          assert all[..start] == keys + c;
        }
    }
  }

  /** A bad cut is after two escapes, or in a marker. */
  lemma WhyBad(keys: string, chunk: string, all: string)
    requires !CleanKeys(keys, chunk) && keys + chunk <= all
    ensures CutAfterTwoEscapes(Split(keys), chunk)
            || match IndexOf(all, PASTE_START)
               case None => false
               case Some(start) => start < |keys| && Split(keys).sequences != Split(keys[..start]).sequences
  {
    hide Split, IndexOf, CutAfterTwoEscapes;
    if IndexOf(keys + chunk, PASTE_START).Some? {
      assert all == keys + chunk + all[|keys + chunk|..];
      IndexExtends(keys + chunk, all[|keys + chunk|..], PASTE_START);
    }
  }

  lemma MarkerIsNoOpener(keys: string, all: string, start: nat)
    requires keys <= all && IndexOf(all, PASTE_START) == Some(start) && |keys| <= start
    requires CutAfterTwoEscapes(Split(keys), all[|keys|..])
    ensures |keys| < start
  {
    hide Split, IndexOf;
    assert all[start..start + |PASTE_START|][0] == ESC;
  }

  lemma KeysAndMore(keys: string, chunk: string, all: string)
    requires keys + chunk <= all && chunk != ""
    ensures all == keys + all[|keys|..] && all[|keys|..] != "" && all[|keys|..][0] == chunk[0] && chunk <= all[|keys|..]
  {
    assert (keys + chunk) == all[..|keys| + |chunk|];
    assert chunk == (keys + chunk)[|keys|..];
  }

  /** Only the first character after the cut matters to two escapes. */
  lemma SameFirst(keys: string, chunk: string, b: string)
    requires chunk != "" && b != "" && b[0] == chunk[0]
    ensures CutAfterTwoEscapes(Split(keys), chunk) == CutAfterTwoEscapes(Split(keys), b)
  {
    hide Split;
  }

  lemma BadInMarker(keys: string, chunk: string, all: string, start: nat)
    requires NoPasteStart(keys) && !CleanKeys(keys, chunk) && chunk != "" && keys + chunk <= all
    requires IndexOf(all, PASTE_START) == Some(start) && start < |keys|
    ensures keys[start] == ESC && keys[start..] <= PASTE_START && keys[start..] != PASTE_START
    ensures Split(keys).sequences != Split(keys[..start]).sequences
  {
    hide Split, IndexOf, NoPasteStart, CutAfterTwoEscapes, CleanKeys;
    KeysAndMore(keys, chunk, all);
    MarkerBegins(keys, all[|keys|..], start);
    WhyBad(keys, chunk, all);
    if CutAfterTwoEscapes(Split(keys), chunk) {
      CutInMarker(keys, chunk, start);
    }
  }

  lemma AfterSame(before: seq<Event>, a: seq<Event>, b: seq<Event>, n: nat)
    requires DifferAt(a, b, n)
    ensures DifferAt(before + a, before + b, |before| + n)
  {
  }

  /** What follows a whole paste. */
  lemma PasteFrom(text: string, end: nat)
    requires IndexOf(text, PASTE_END) == Some(end)
    ensures TakePaste(State("", true, text, None)).events
         == [Paste(text[..end])] + From(None, text[end + |PASTE_END|..]).events
  {
    hide Process, IndexOf;
  }

  lemma StartFrom(pending: Option<int>, input: string, start: nat)
    requires IndexOf(input, PASTE_START) == Some(start)
    ensures From(pending, input).events
         == EmitAll(pending, Split(input[..start]).sequences).events
            + TakePaste(State("", true, input[start + |PASTE_START|..], None)).events
  {
    hide Process, IndexOf, TakePaste, EmitAll, Split;
    assert "" + input == input;
    BeginsPaste(Idle(pending), input, start);
  }

  /** At a bad cut the input before it has given an event that the whole input does not give. */
  lemma BadCutShows(pending: Option<int>, input: string, chunk: string, all: string) returns (n: nat)
    requires pending.Some? ==> pending.value >= 32
    requires !CleanCut(input, chunk) && chunk != "" && input + chunk <= all
    ensures DifferAt(From(pending, input).events, From(pending, all).events, n)
    decreases |input|
  {
    hide CleanKeys, IndexOf, Process, From, DifferAt;
    match IndexOf(input, PASTE_START) {
      case None =>
        n := KeysDiffer(pending, input, chunk, all);
      case Some(start) =>
        var more := all[|input|..];
        InputThen(input, chunk, all);
        var text := input[start + |PASTE_START|..];
        var end := IndexOf(text, PASTE_END).value;
        var rest := text[end + |PASTE_END|..];
        RestOfPrefix(rest, chunk, more);
        n := BadCutShows(None, rest, chunk, rest + more);
        n := DifferBehindPaste(pending, input, more, start, end, n);
    }
  }

  lemma DifferBehindPaste(pending: Option<int>, input: string, more: string, start: nat, end: nat, k: nat)
    returns (n: nat)
    requires IndexOf(input, PASTE_START) == Some(start)
    requires IndexOf(input[start + |PASTE_START|..], PASTE_END) == Some(end)
    requires var rest := input[start + |PASTE_START|..][end + |PASTE_END|..];
             DifferAt(From(None, rest).events, From(None, rest + more).events, k)
    ensures DifferAt(From(pending, input).events, From(pending, input + more).events, n)
  {
    hide IndexOf, From, TakePaste, EmitAll, Split, DifferAt;
    var text := input[start + |PASTE_START|..];
    var rest := text[end + |PASTE_END|..];
    IndexExtends(input, more, PASTE_START);
    IndexExtends(text, more, PASTE_END);
    var paste, before := [Paste(text[..end])], EmitAll(pending, Split(input[..start]).sequences).events;
    AfterSame(paste, From(None, rest).events, From(None, rest + more).events, k);
    AfterSame(before, paste + From(None, rest).events, paste + From(None, rest + more).events, 1 + k);
    PasteFrom(text, end);
    PasteFrom(text + more, end);
    assert (text + more)[..end] == text[..end] && (text + more)[end + |PASTE_END|..] == rest + more;
    StartFrom(pending, input, start);
    StartFrom(pending, input + more, start);
    assert (input + more)[..start] == input[..start] && (input + more)[start + |PASTE_START|..] == text + more;
    n := |before| + (1 + k);
  }

  lemma InputThen(input: string, chunk: string, all: string)
    requires input + chunk <= all
    ensures all == input + all[|input|..] && chunk <= all[|input|..]
  {
    assert input + chunk == all[..|input| + |chunk|];
    assert chunk == (input + chunk)[|input|..];
  }

  lemma RestOfPrefix(rest: string, chunk: string, more: string)
    requires chunk <= more
    ensures rest + chunk <= rest + more
  {
  }

  lemma FirstUncleanCut(chunks: seq<string>) returns (k: nat)
    requires AllNonEmpty(chunks) && !CleanCuts(chunks)
    ensures k < |chunks| && !CleanCut(Flatten(chunks[..k]), chunks[k]) && CleanCuts(chunks[..k])
  {
    hide CleanCut, Flatten;
    var n := |chunks| - 1;
    assert chunks != [];
    if CleanCuts(chunks[..n]) {
      k := n;
      if CleanCut(Flatten(chunks[..n]), chunks[n]) {
        forall j | 0 <= j < |chunks| ensures CleanCut(Flatten(chunks[..j]), chunks[j]) {
          if j < n { SameCut(chunks, n, j); }
        }
      }
    } else {
      k := FirstUncleanCut(chunks[..n]);
      assert chunks[..n][..k] == chunks[..k];
    }
  }

  lemma SameCut(chunks: seq<string>, n: nat, j: nat)
    requires j < n <= |chunks| && CleanCuts(chunks[..n])
    ensures CleanCut(Flatten(chunks[..j]), chunks[j])
  {
    hide CleanCut, Flatten;
    assert chunks[..n][..j] == chunks[..j] && chunks[..n][j] == chunks[j];
  }

  /** For every input, keys and pastes in any order, cut into any non-empty chunks: the events and the state
      are those of one chunk if and only if every cut is clean. */
  lemma StreamInvarianceIff(pending: Option<int>, chunks: seq<string>)
    requires pending.Some? ==> pending.value >= 32
    requires AllNonEmpty(chunks)
    ensures ProcessAll(Idle(pending), chunks) == From(pending, Flatten(chunks)) <==> CleanCuts(chunks)
  {
    hide CleanCuts, CleanCut, Flatten, ProcessAll, From, DifferAt;
    if CleanCuts(chunks) {
      StreamInvariance(pending, chunks);
    } else {
      var k := FirstUncleanCut(chunks);
      StreamInvariance(pending, chunks[..k]);
      EventsGrow(Idle(pending), chunks, k);
      PartOfStream(chunks, k);
      var n := BadCutShows(pending, Flatten(chunks[..k]), chunks[k], Flatten(chunks));
      NoPrefix(From(pending, Flatten(chunks[..k])).events, From(pending, Flatten(chunks)).events, n);
    }
  }

  lemma PartOfStream(chunks: seq<string>, k: nat)
    requires k < |chunks|
    ensures Flatten(chunks[..k]) + chunks[k] <= Flatten(chunks)
  {
    hide Flatten;
    AtChunk(chunks, k);
    FlattenPush(chunks[..k], chunks[k]);
    FlattenAppend(chunks[..k] + [chunks[k]], chunks[k + 1..]);
    IsPrefix(Flatten(chunks[..k]) + chunks[k], Flatten(chunks[k + 1..]));
  }

  lemma AtChunk(chunks: seq<string>, k: nat)
    requires k < |chunks|
    ensures chunks == chunks[..k] + [chunks[k]] + chunks[k + 1..]
  {
  }

  lemma IsPrefix(a: string, b: string)
    ensures a <= a + b
  {
  }

  /** Such an input: an escape and then a paste, cut inside the start marker. The escape is emitted as a key,
      though in one chunk it is discarded. */
  lemma EscapeBeforePaste(pending: Option<int>)
    requires pending.Some? ==> pending.value >= 32
    ensures var chunks := [[ESC, ESC, '['], "200~"];
            && Flatten(chunks) == [ESC] + PASTE_START
            && ProcessAll(Idle(pending), chunks) != From(pending, [ESC] + PASTE_START)
  {
    hide ProcessAll, From, Flatten, CleanCut;
    var keys := [ESC, ESC, '['];
    TwoParts(keys, "200~");
    CutInStart(keys);
    assert keys + "200~" == [ESC] + PASTE_START;
    var chunks := [keys, "200~"];
    assert !CleanCut(Flatten(chunks[..1]), chunks[1]);
    StreamInvarianceIff(pending, chunks);
  }

  lemma TwoParts(a: string, b: string)
    ensures Flatten([a, b]) == a + b && Flatten([a, b][..1]) == a
  {
    FlattenCons(a, []);
    FlattenPush([a], b);
    assert [a, b][..1] == [a] && [a] + [b] == [a, b] && [a] + [] == [a] && a + "" == a;
  }

  lemma CutInStart(keys: string)
    requires keys == [ESC, ESC, '[']
    ensures !CleanCut(keys, "200~")
  {
    hide IndexOf, Split, Open, CutAfterTwoEscapes;
    assert keys + "200~" == [ESC] + PASTE_START + "" && keys[..1] == [ESC];
    NoneStart([ESC]);
    StartMarkerFound([ESC], "");
    NoneStart(keys);
    NoneIsOpen(keys);
    EscapeIsTaken(keys);
  }

  lemma EscapeIsTaken(keys: string)
    requires keys == [ESC, ESC, '[']
    ensures Split(keys).sequences != [] && keys[..1] == [ESC] && Split([ESC]).sequences == []
  {
    TwoEscapesAreOnePiece();
    FirstPieceExtends([ESC, ESC], "[");
    assert keys == [ESC, ESC] + "[";
    assert [ESC][..1] == [ESC] && FirstComplete([ESC], 1) == FirstComplete([ESC], 2) == None;
  }

  // Keys and pastes spelled out.

  /** Key text and the paste after it. */
  datatype Segment = Segment(keys: string, content: string)

  function Bracketed(content: string): string {
    PASTE_START + (content + PASTE_END)
  }

  /** What the terminal sends. */
  function Stream(segments: seq<Segment>, tail: string): string {
    if segments == [] then tail else segments[0].keys + Bracketed(segments[0].content) + Stream(segments[1..], tail)
  }

  /** The events due: for each segment those of its keys and one paste, at last those of the keys after it. */
  function Expected(pending: Option<int>, segments: seq<Segment>, tail: string): Output
    decreases |segments|
  {
    if segments == [] then Whole(pending, tail)
    else
      var keys := EmitAll(pending, Split(segments[0].keys).sequences);
      var rest := Expected(None, segments[1..], tail);
      Output(rest.state, keys.events + ([Paste(segments[0].content)] + rest.events))
  }

  ghost predicate Sent(segments: seq<Segment>, tail: string) {
    && NoPasteStart(tail)
    && forall k :: 0 <= k < |segments| ==> NoPasteStart(segments[k].keys) && !Contains(segments[k].content, PASTE_END)
  }

  /** No two escapes next to each other in key text, and no incomplete sequence before a paste. */
  ghost predicate Orderly(segments: seq<Segment>, tail: string) {
    && !AdjacentEscapes(tail)
    && forall k :: 0 <= k < |segments| ==>
         !AdjacentEscapes(segments[k].keys) && Split(segments[k].keys).remainder == ""
  }

  /** A start marker in key text and the marker after it is that marker. */
  lemma StartMarkerUnique(keys: string, more: string, i: int)
    requires NoPasteStart(keys) && MatchesAt(keys + PASTE_START + more, PASTE_START, i)
    ensures |keys| <= i
  {
    var all := keys + PASTE_START + more;
    if 0 <= i < |keys| {
      if i + |PASTE_START| <= |keys| {
        assert keys[i..i + |PASTE_START|] == all[i..i + |PASTE_START|];
        assert MatchesAt(keys, PASTE_START, i);
      } else {
        assert all[|keys|] == ESC && all[|keys|] == all[i..i + |PASTE_START|][|keys| - i];
        NoInnerEscape(|keys| - i);
      }
    }
  }

  lemma NoInnerEscape(k: nat)
    requires 0 < k < |PASTE_START|
    ensures PASTE_START[k] != ESC
  {
  }

  lemma StartMarkerFound(keys: string, more: string)
    requires NoPasteStart(keys)
    ensures IndexOf(keys + PASTE_START + more, PASTE_START) == Some(|keys|)
  {
    var all := keys + PASTE_START + more;
    assert all[|keys|..|keys| + |PASTE_START|] == PASTE_START;
    assert MatchesAt(all, PASTE_START, |keys|);
    forall i | MatchesAt(all, PASTE_START, i) ensures |keys| <= i {
      StartMarkerUnique(keys, more, i);
    }
    hide IndexOf;
  }

  lemma EndMarkerOpens(content: string, more: string)
    requires !Contains(content, PASTE_END)
    ensures IndexOf(content + PASTE_END + more, PASTE_END) == Some(|content|)
  {
    hide IndexOf, Contains;
    EndMarkerFound(content, |content| + |PASTE_END|);
    assert (content + PASTE_END)[..|content| + |PASTE_END|] == content + PASTE_END;
    IndexExtends(content + PASTE_END, more, PASTE_END);
  }

  lemma SegmentFirst(s: Segment, more: string)
    ensures s.keys + Bracketed(s.content) + more == s.keys + PASTE_START + (s.content + PASTE_END + more)
  {
  }

  lemma PasteThen(content: string, more: string)
    requires !Contains(content, PASTE_END)
    ensures var rest := From(None, more);
            TakePaste(State("", true, content + PASTE_END + more, None))
            == Output(rest.state, [Paste(content)] + rest.events)
  {
    hide IndexOf, Process, Contains;
    EndMarkerOpens(content, more);
    var text := content + PASTE_END + more;
    assert text[..|content|] == content && text[|content| + |PASTE_END|..] == more;
  }

  lemma {:induction false} StreamIsExpected(pending: Option<int>, segments: seq<Segment>, tail: string)
    requires Sent(segments, tail)
    ensures From(pending, Stream(segments, tail)) == Expected(pending, segments, tail)
    decreases |segments|
  {
    if segments == [] {
      KeysFrom(pending, tail);
    } else {
      hide Process, IndexOf, EmitAll, Split, TakePaste, Contains;
      var s, more := segments[0], Stream(segments[1..], tail);
      StreamIsExpected(None, segments[1..], tail);
      SegmentFirst(s, more);
      var text := s.content + PASTE_END + more;
      var all := s.keys + PASTE_START + text;
      StartMarkerFound(s.keys, text);
      assert "" + all == all && all[..|s.keys|] == s.keys && all[|s.keys| + |PASTE_START|..] == text;
      BeginsPaste(Idle(pending), all, |s.keys|);
      PasteThen(s.content, more);
    }
  }

  // Every cut of such a stream is clean.

  lemma PrefixHasNoStart(keys: string, more: string, input: string)
    requires NoPasteStart(keys) && input <= keys + PASTE_START + more && |input| < |keys| + |PASTE_START|
    ensures NoPasteStart(input)
  {
    var all := keys + PASTE_START + more;
    forall i ensures !MatchesAt(input, PASTE_START, i) {
      if MatchesAt(input, PASTE_START, i) {
        assert all[i..i + |PASTE_START|] == input[i..i + |PASTE_START|];
        assert MatchesAt(all, PASTE_START, i);
        StartMarkerUnique(keys, more, i);
      }
    }
  }

  lemma NoneIsOpen(input: string)
    requires NoPasteStart(input)
    ensures Open(input) == Some(input) && IndexOf(input, PASTE_START) == None
  {
  }

  lemma NoBadEnd(keys: string, input: string, chunk: string)
    requires !AdjacentEscapes(keys) && input <= keys
    ensures !CutAfterTwoEscapes(Split(input), chunk)
  {
    hide Split;
    if CutAfterTwoEscapes(Split(input), chunk) {
      LastPieceEnds(input, [ESC, ESC]);
      var front :| input == front + [ESC, ESC];
      assert keys == front + [ESC, ESC] + keys[|input|..];
      EscapesAdjacent(front, keys[|input|..]);
    }
  }

  /** A cut in key text or in the start marker after it. */
  lemma CleanBeforePaste(keys: string, more: string, input: string, chunk: string)
    requires NoPasteStart(keys) && !AdjacentEscapes(keys) && Split(keys).remainder == ""
    requires input + chunk <= keys + PASTE_START + more && |input| < |keys| + |PASTE_START|
    ensures CleanCut(input, chunk)
  {
    hide Split, IndexOf, AdjacentEscapes, NoPasteStart, CutAfterTwoEscapes, Open;
    InputIsPrefix(keys + PASTE_START + more, input, chunk);
    PrefixHasNoStart(keys, more, input);
    NoneIsOpen(input);
    NoCutInMarker(keys, more, input, chunk);
    if IndexOf(input + chunk, PASTE_START).Some? {
      StartInPrefix(keys, more, input + chunk, IndexOf(input + chunk, PASTE_START).value);
      KeysOfPrefix(keys, more, input);
    }
  }

  lemma InputIsPrefix(all: string, input: string, chunk: string)
    requires input + chunk <= all
    ensures input <= all
  {
    assert input == (input + chunk)[..|input|] == all[..|input|];
  }

  lemma KeysOfPrefix(keys: string, more: string, input: string)
    requires input <= keys + PASTE_START + more
    ensures |keys| <= |input| ==> input[..|keys|] == keys
    ensures |input| <= |keys| ==> input <= keys
    ensures |keys| < |input| < |keys| + |PASTE_START| ==> input == keys + PASTE_START[..|input| - |keys|]
  {
    assert input == (keys + PASTE_START + more)[..|input|];
  }

  /** A start marker under way is held back, so the piece before the cut is not two escapes. */
  lemma NoCutInMarker(keys: string, more: string, input: string, chunk: string)
    requires !AdjacentEscapes(keys) && Split(keys).remainder == ""
    requires input <= keys + PASTE_START + more && |input| < |keys| + |PASTE_START|
    ensures !CutAfterTwoEscapes(Split(input), chunk)
    ensures |keys| < |input| ==> Split(input).sequences == Split(keys).sequences
  {
    hide Split, AdjacentEscapes;
    KeysOfPrefix(keys, more, input);
    if |input| <= |keys| {
      NoBadEnd(keys, input, chunk);
    } else {
      MarkerIsHeldBack(keys, |input| - |keys|);
    }
  }

  lemma StartInPrefix(keys: string, more: string, input: string, start: nat)
    requires NoPasteStart(keys) && input <= keys + PASTE_START + more && IndexOf(input, PASTE_START) == Some(start)
    ensures start == |keys|
  {
    StartMarkerFound(keys, more);
    var all := keys + PASTE_START + more;
    assert all == input + all[|input|..];
    IndexExtends(input, all[|input|..], PASTE_START);
    hide IndexOf;
  }

  /** A cut inside a paste. */
  lemma CleanInPaste(s: Segment, input: string, chunk: string)
    requires NoPasteStart(s.keys) && !Contains(s.content, PASTE_END)
    requires |s.keys| + |PASTE_START| <= |input| < |s.keys + Bracketed(s.content)|
    requires input <= s.keys + Bracketed(s.content)
    ensures CleanCut(input, chunk)
  {
    hide IndexOf, Contains, CleanKeys;
    var n := |input| - |s.keys| - |PASTE_START|;
    var text := (s.content + PASTE_END)[..n];
    assert input == s.keys + PASTE_START + text;
    StartMarkerFound(s.keys, text);
    EndMarkerFound(s.content, n);
    assert input[|s.keys| + |PASTE_START|..] == text;
  }

  /** After a paste the cut is judged by what follows it. */
  lemma OpenAfterPaste(s: Segment, input: string)
    requires NoPasteStart(s.keys) && !Contains(s.content, PASTE_END)
    ensures Open(s.keys + Bracketed(s.content) + input) == Open(input)
  {
    hide IndexOf, Contains;
    SegmentFirst(s, input);
    var text := s.content + PASTE_END + input;
    StartMarkerFound(s.keys, text);
    EndMarkerOpens(s.content, input);
    assert (s.keys + PASTE_START + text)[|s.keys| + |PASTE_START|..] == text;
    assert text[|s.content| + |PASTE_END|..] == input;
  }

  lemma CleanInTail(tail: string, input: string, chunk: string)
    requires NoPasteStart(tail) && !AdjacentEscapes(tail) && input + chunk <= tail
    ensures CleanCut(input, chunk)
  {
    hide Split, AdjacentEscapes;
    assert tail == "" + (input + chunk) + tail[|input + chunk|..] && tail == "" + input + tail[|input|..];
    NoPasteStartWithin("", input + chunk, tail[|input + chunk|..]);
    NoPasteStartWithin("", input, tail[|input|..]);
    NoneIsOpen(input);
    NoneIsOpen(input + chunk);
    NoBadEnd(tail, input, chunk);
  }

  lemma {:induction false} EveryCutIsClean(segments: seq<Segment>, tail: string, input: string, chunk: string)
    requires Sent(segments, tail) && Orderly(segments, tail) && input + chunk <= Stream(segments, tail)
    ensures CleanCut(input, chunk)
    decreases |segments|
  {
    hide Split, AdjacentEscapes, Contains, CleanKeys, Open, NoPasteStart;
    if segments == [] {
      CleanInTail(tail, input, chunk);
    } else {
      var s, more := segments[0], Stream(segments[1..], tail);
      var first := s.keys + Bracketed(s.content);
      SegmentFirst(s, more);
      if |input| < |s.keys| + |PASTE_START| {
        CleanBeforePaste(s.keys, s.content + PASTE_END + more, input, chunk);
      } else if |input| < |first| {
        assert input == (first + more)[..|input|] == first[..|input|];
        CleanInPaste(s, input, chunk);
      } else {
        var rest := input[|first|..];
        assert input == (first + more)[..|input|] && input == first + rest;
        assert first + rest + chunk == first + (rest + chunk);
        assert rest + chunk <= more by { SamePrefix(first, rest + chunk, more); }
        EveryCutIsClean(segments[1..], tail, rest, chunk);
        OpenAfterPaste(s, rest);
      }
    }
  }

  lemma SamePrefix(first: string, a: string, b: string)
    requires first + a <= first + b
    ensures a <= b
  {
    assert a == (first + a)[|first|..] && b == (first + b)[|first|..];
    assert forall k :: 0 <= k < |a| ==> a[k] == (first + a)[|first| + k] == (first + b)[|first| + k] == b[k];
  }

  /** Keys and pastes in turn, cut into any non-empty chunks, also inside markers and with keys and pastes in
      one chunk: each paste is one event with its content, between the events of the keys around it. */
  lemma KeysAndPastes(pending: Option<int>, segments: seq<Segment>, tail: string, chunks: seq<string>)
    requires Sent(segments, tail) && Orderly(segments, tail)
    requires AllNonEmpty(chunks) && Flatten(chunks) == Stream(segments, tail)
    ensures ProcessAll(Idle(pending), chunks) == Expected(pending, segments, tail)
  {
    hide Process, CleanCut, Sent, Orderly, Flatten;
    forall k | 0 <= k < |chunks| ensures CleanCut(Flatten(chunks[..k]), chunks[k]) {
      PartOfStream(chunks, k);
      EveryCutIsClean(segments, tail, Flatten(chunks[..k]), chunks[k]);
    }
    StreamInvariance(pending, chunks);
    StreamIsExpected(pending, segments, tail);
  }
}
