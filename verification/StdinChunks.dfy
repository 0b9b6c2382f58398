/** What the input splitter promises: its events do not depend on how the input was cut into chunks. */
module StdinChunks {
  import opened StdinBuffers
  import opened StdinEvents
  import opened Text

  lemma {:induction false} EmitAllAppend(pending: Option<int>, a: seq<string>, b: seq<string>)
    ensures var first := EmitAll(pending, a);
            var second := EmitAll(first.pending, b);
            EmitAll(pending, a + b) == Emission(second.pending, first.events + second.events)
  {
    if b == [] {
      assert a + b == a;
    } else {
      EmitAllAppend(pending, a, b[..|b| - 1]);
      assert (a + b)[..|a + b| - 1] == a + b[..|b| - 1];
    }
  }

  ghost predicate NoPasteStart(s: string) {
    forall i :: !MatchesAt(s, PASTE_START, i)
  }

  lemma NoPasteStartWithin(a: string, b: string, c: string)
    requires NoPasteStart(a + b + c)
    ensures NoPasteStart(b)
  {
    forall i ensures !MatchesAt(b, PASTE_START, i) {
      if 0 <= i <= |b| - |PASTE_START| {
        assert (a + b + c)[|a| + i..|a| + i + |PASTE_START|] == b[i..i + |PASTE_START|];
        assert !MatchesAt(a + b + c, PASTE_START, |a| + i);
      }
    }
  }

  /** What input without a paste start gives when it comes in one piece. */
  function Whole(pending: Option<int>, input: string): Output {
    var pieces := Split(input);
    var e := EmitAll(pending, pieces.sequences);
    Output(State(pieces.remainder, false, "", e.pending), e.events)
  }

  lemma OneChunk(pending: Option<int>, input: string)
    requires input != "" && NoPasteStart(input)
    ensures Process(Idle(pending), input) == Whole(pending, input)
  {
    assert "" + input == input;
  }

  /** One more chunk: the same as if it had come with the input before it, unless the cut is between
      two escapes and what the second one opens. */
  lemma NextChunk(pending: Option<int>, input: string, chunk: string)
    requires chunk != "" && NoPasteStart(input + chunk)
    requires !CutAfterTwoEscapes(Split(input), chunk)
    ensures var first := Whole(pending, input);
            var second := Process(first.state, chunk);
            Output(second.state, first.events + second.events) == Whole(pending, input + chunk)
  {
    var first := Split(input);
    SplitOfParts(input, chunk);
    RemainderEnds(input, chunk);
    EmitAllAppend(pending, first.sequences, Split(first.remainder + chunk).sequences);
  }

  lemma RemainderEnds(input: string, chunk: string)
    requires NoPasteStart(input + chunk)
    ensures NoPasteStart(Split(input).remainder + chunk)
  {
    SplitIsLossless(input);
    var first := Split(input);
    assert input + chunk == Flatten(first.sequences) + (first.remainder + chunk) + "";
    NoPasteStartWithin(Flatten(first.sequences), first.remainder + chunk, "");
  }

  predicate BadCut(chunks: seq<string>, k: nat)
    requires k < |chunks|
  {
    CutAfterTwoEscapes(Split(Flatten(chunks[..k])), chunks[k])
  }

  predicate GoodCuts(chunks: seq<string>) {
    AllNonEmpty(chunks) && forall k :: 0 <= k < |chunks| ==> !BadCut(chunks, k)
  }

  /** The cuts of the chunks are those of all but the last, and the one before the last. */
  lemma LastCut(chunks: seq<string>)
    requires chunks != [] && AllNonEmpty(chunks)
    ensures var n := |chunks| - 1;
            AllNonEmpty(chunks[..n]) && (GoodCuts(chunks) <==> GoodCuts(chunks[..n]) && !BadCut(chunks, n))
    ensures forall k :: 0 <= k < |chunks| - 1 ==> BadCut(chunks[..|chunks| - 1], k) == BadCut(chunks, k)
  {
    hide CutAfterTwoEscapes, Split, Flatten;
    var n := |chunks| - 1;
    forall k | 0 <= k < n ensures BadCut(chunks[..n], k) == BadCut(chunks, k) {
      assert chunks[..n][..k] == chunks[..k];
    }
  }

  lemma {:induction false} ChunksAreOneChunk(pending: Option<int>, chunks: seq<string>)
    requires GoodCuts(chunks) && NoPasteStart(Flatten(chunks))
    ensures ProcessAll(Idle(pending), chunks) == Whole(pending, Flatten(chunks))
  {
    hide Process, NoPasteStart, CutAfterTwoEscapes, Split, GoodCuts, Flatten;
    if chunks == [] {
      NoChunks(pending, chunks);
    } else {
      var n := |chunks| - 1;
      var front, last := chunks[..n], chunks[n];
      assert AllNonEmpty(chunks) by { GoodIsNonEmpty(chunks); }
      LastCut(chunks);
      CutInTwo(chunks, n);
      assert "" + Flatten(front) + last == Flatten(front) + last;
      OneLeft(chunks);
      NoPasteStartWithin("", Flatten(front), last);
      ChunksAreOneChunk(pending, front);
      NextChunk(pending, Flatten(front), last);
    }
  }

  lemma NoChunks(pending: Option<int>, chunks: seq<string>)
    requires chunks == []
    ensures ProcessAll(Idle(pending), chunks) == Whole(pending, Flatten(chunks))
  {
  }

  lemma GoodIsNonEmpty(chunks: seq<string>)
    requires GoodCuts(chunks)
    ensures AllNonEmpty(chunks)
  {
  }

  lemma OneLeft(chunks: seq<string>)
    requires chunks != []
    ensures Flatten(chunks) == Flatten(chunks[..|chunks| - 1]) + chunks[|chunks| - 1]
  {
  }

  lemma CutInTwo(chunks: seq<string>, k: nat)
    requires k < |chunks| && chunks[k] != ""
    ensures Flatten(chunks) == Flatten(chunks[..k]) + Flatten(chunks[k..])
    ensures Flatten(chunks[k..]) != "" && Flatten(chunks[k..])[0] == chunks[k][0]
  {
    hide Flatten;
    assert chunks == chunks[..k] + chunks[k..];
    FlattenAppend(chunks[..k], chunks[k..]);
    assert chunks[k..] == [chunks[k]] + chunks[k + 1..];
    FlattenCons(chunks[k], chunks[k + 1..]);
  }

  /** Any way of cutting input without a paste start into non-empty chunks gives the same events and
      the same state as one chunk, if no cut is between two escapes and what the second one opens. */
  lemma ChunkInvariance(pending: Option<int>, chunks: seq<string>)
    requires chunks != [] && GoodCuts(chunks) && NoPasteStart(Flatten(chunks))
    ensures ProcessAll(Idle(pending), chunks) == Process(Idle(pending), Flatten(chunks))
  {
    ChunksAreOneChunk(pending, chunks);
    OneChunk(pending, Flatten(chunks));
  }

  ghost predicate AdjacentEscapes(s: string) {
    exists i :: 0 <= i < |s| - 1 && s[i] == s[i + 1] == ESC
  }

  lemma LastPieceEnds(input: string, piece: string)
    requires var p := Split(input); p.remainder == "" && p.sequences != [] && p.sequences[|p.sequences| - 1] == piece
    ensures exists front :: input == front + piece
  {
    SplitIsLossless(input);
    hide Split;
    var sequences := Split(input).sequences;
    var front := sequences[..|sequences| - 1];
    assert sequences == front + [piece];
    FlattenPush(front, piece);
    assert input == Flatten(front) + piece;
  }

  /** Input in which no two escapes are adjacent has good cuts only. */
  lemma NoAdjacentEscapesIsGood(chunks: seq<string>)
    requires AllNonEmpty(chunks)
    requires !AdjacentEscapes(Flatten(chunks))
    ensures GoodCuts(chunks)
  {
    forall k | 0 <= k < |chunks| ensures !BadCut(chunks, k) {
      NoAdjacentEscapesAtCut(chunks, k);
    }
  }

  lemma NoAdjacentEscapesAtCut(chunks: seq<string>, k: nat)
    requires k < |chunks| && !AdjacentEscapes(Flatten(chunks))
    ensures !CutAfterTwoEscapes(Split(Flatten(chunks[..k])), chunks[k])
  {
    hide Split, Flatten;
    var input, whole := Flatten(chunks[..k]), Flatten(chunks);
    if CutAfterTwoEscapes(Split(input), chunks[k]) {
      LastPieceEnds(input, [ESC, ESC]);
      var front :| input == front + [ESC, ESC];
      assert chunks == chunks[..k] + chunks[k..];
      FlattenAppend(chunks[..k], chunks[k..]);
      assert whole == front + [ESC, ESC] + Flatten(chunks[k..]);
      EscapesAdjacent(front, Flatten(chunks[k..]));
    }
  }

  lemma EscapesAdjacent(front: string, back: string)
    ensures AdjacentEscapes(front + [ESC, ESC] + back)
  {
    var s := front + [ESC, ESC] + back;
    assert s[|front|] == s[|front| + 1] == ESC;
  }

  /** For one cut the condition is exact: at a cut between two escapes and what the second one opens,
      the events always differ from those of the uncut input. */
  lemma OneCutIff(pending: Option<int>, a: string, b: string)
    requires pending.Some? ==> pending.value >= 32
    requires a != "" && b != "" && NoPasteStart(a + b)
    ensures ProcessAll(Idle(pending), [a, b]) == Process(Idle(pending), a + b)
       <==> !CutAfterTwoEscapes(Split(a), b)
  {
    TwoChunks(pending, a, b);
    OneChunk(pending, a + b);
    var first := Split(a);
    if !CutAfterTwoEscapes(first, b) {
      NextChunk(pending, a, b);
    } else {
      SplitOfParts(a, b);
      RemainderEnds(a, b);
      var rest := Split(first.remainder + b);
      EmitAllAppend(pending, first.sequences, rest.sequences);
      var n := |first.sequences| - 1;
      var parts, whole := first.sequences + rest.sequences, Split(a + b).sequences;
      EventOfPiece(pending, parts, n);
      EventOfPiece(pending, whole, n);
      assert parts[..n] == first.sequences[..n] == whole[..n];
    }
  }

  lemma TwoChunks(pending: Option<int>, a: string, b: string)
    requires a != "" && NoPasteStart(a + b)
    ensures var first := Whole(pending, a);
            var second := Process(first.state, b);
            ProcessAll(Idle(pending), [a, b]) == Output(second.state, first.events + second.events)
  {
    assert "" + a + b == a + b;
    NoPasteStartWithin("", a, b);
    OneChunk(pending, a);
    assert [a, b][..1] == [a] && [a][..0] == [];
    assert ProcessAll(Idle(pending), [a]) == Whole(pending, a);
  }

  /** An escape, or two, is always emitted, after the events of the pieces before it. */
  lemma EventOfPiece(pending: Option<int>, sequences: seq<string>, n: nat)
    requires pending.Some? ==> pending.value >= 32
    requires n < |sequences| && (sequences[n] == [ESC] || sequences[n] == [ESC, ESC])
    ensures var events, before := EmitAll(pending, sequences).events, |EmitAll(pending, sequences[..n]).events|;
            before < |events| && events[before] == Data(sequences[n])
  {
    hide EmitAll, KittyCodepoint;
    var before, piece := sequences[..n], sequences[n];
    assert sequences == (before + [piece]) + sequences[n + 1..];
    EmitAllAppend(pending, before + [piece], sequences[n + 1..]);
    EmitAllPush(pending, before, piece);
  }

  lemma EmitAllPush(pending: Option<int>, sequences: seq<string>, s: string)
    ensures var before := EmitAll(pending, sequences);
            var last := Emit(before.pending, s);
            EmitAll(pending, sequences + [s]) == Emission(last.pending, before.events + last.events)
  {
    assert (sequences + [s])[..|sequences|] == sequences;
  }

  // The exact condition for any number of chunks.

  /** Later chunks add events; they do not change the ones emitted. */
  lemma {:induction false} EventsGrow(st: State, chunks: seq<string>, k: nat)
    requires k <= |chunks|
    ensures ProcessAll(st, chunks[..k]).events <= ProcessAll(st, chunks).events
    decreases |chunks|
  {
    hide Process;
    if k < |chunks| {
      var front := chunks[..|chunks| - 1];
      assert front[..k] == chunks[..k];
      EventsGrow(st, front, k);
    } else {
      assert chunks[..k] == chunks;
    }
  }

  lemma {:induction false} FirstBadCut(chunks: seq<string>) returns (k: nat)
    requires AllNonEmpty(chunks) && !GoodCuts(chunks)
    ensures k < |chunks| && BadCut(chunks, k) && GoodCuts(chunks[..k])
  {
    hide BadCut;
    LastCut(chunks);
    hide GoodCuts;
    var front := chunks[..|chunks| - 1];
    if GoodCuts(front) {
      k := |front|;
    } else {
      k := FirstBadCut(front);
      assert front[..k] == chunks[..k];
    }
  }

  /** At a bad cut the first part has an event of two escapes where the whole has an event of one. */
  lemma BadCutDiffers(pending: Option<int>, a: string, b: string)
    requires pending.Some? ==> pending.value >= 32
    requires CutAfterTwoEscapes(Split(a), b)
    ensures !(Whole(pending, a).events <= Whole(pending, a + b).events)
  {
    hide EmitAll, FirstPiece;
    var first, whole := Split(a).sequences, Split(a + b).sequences;
    SplitOfParts(a, b);
    var n := |first| - 1;
    EventOfPiece(pending, first, n);
    EventOfPiece(pending, whole, n);
    assert first[..n] == whole[..n] && first[n] != whole[n];
  }

  lemma BadCutsDiffer(pending: Option<int>, chunks: seq<string>)
    requires pending.Some? ==> pending.value >= 32
    requires AllNonEmpty(chunks) && NoPasteStart(Flatten(chunks)) && !GoodCuts(chunks)
    ensures ProcessAll(Idle(pending), chunks).events != Whole(pending, Flatten(chunks)).events
  {
    hide GoodCuts, Process, ProcessAll, Whole, CutAfterTwoEscapes, Flatten, Split, NoPasteStart;
    var k := FirstBadCut(chunks);
    CutInTwo(chunks, k);
    var a, b := Flatten(chunks[..k]), Flatten(chunks[k..]);
    assert "" + a + b == a + b;
    NoPasteStartWithin("", a, b);
    ChunksAreOneChunk(pending, chunks[..k]);
    EventsGrow(Idle(pending), chunks, k);
    CutSeesFirst(Split(a), chunks[k], b);
    BadCutDiffers(pending, a, b);
  }

  /** Only the first character after the cut matters. */
  lemma CutSeesFirst(first: Pieces, chunk: string, b: string)
    requires CutAfterTwoEscapes(first, chunk) && b != "" && b[0] == chunk[0]
    ensures CutAfterTwoEscapes(first, b)
  {
  }

  /** For input without a paste start, cut into any number of non-empty chunks: the events and the state
      are those of one chunk if and only if no cut is between two escapes and what the second one opens. */
  lemma ChunkInvarianceIff(pending: Option<int>, chunks: seq<string>)
    requires pending.Some? ==> pending.value >= 32
    requires chunks != [] && AllNonEmpty(chunks) && NoPasteStart(Flatten(chunks))
    ensures ProcessAll(Idle(pending), chunks) == Process(Idle(pending), Flatten(chunks)) <==> GoodCuts(chunks)
  {
    if GoodCuts(chunks) {
      ChunkInvariance(pending, chunks);
    } else {
      hide GoodCuts, Process, Whole, Flatten;
      CutInTwo(chunks, 0);
      assert chunks[0..] == chunks;
      OneChunk(pending, Flatten(chunks));
      BadCutsDiffer(pending, chunks);
    }
  }

  /** Such a cut: two escapes, then the rest of an arrow key. In one chunk they are an escape and the key. */
  lemma ArrowKeyCutInTwo()
    ensures ProcessAll(Idle(None), [[ESC, ESC], "[A"]) == Output(Idle(None), [Data([ESC, ESC]), Data("["), Data("A")])
    ensures Process(Idle(None), [ESC, ESC] + "[A") == Output(Idle(None), [Data([ESC]), Data([ESC] + "[A")])
  {
    hide Process, ProcessAll, Split, EmitAll, KittyCodepoint;
    var whole := [ESC, ESC] + "[A";
    ShortSplits();
    NoneStart(whole);
    NoneStart("[A");
    OneChunk(None, whole);
    OneChunk(None, "[A");
    TwoChunks(None, [ESC, ESC], "[A");
    NoReports();
    EmitTwo([ESC], [ESC] + "[A");
    EmitTwo("[", "A");
    EmitOne([ESC, ESC]);
    assert [Data([ESC, ESC])] + [Data("["), Data("A")] == [Data([ESC, ESC]), Data("["), Data("A")];
  }

  lemma ShortSplits()
    ensures Split([ESC, ESC] + "[A") == Pieces([[ESC], [ESC] + "[A"], "")
    ensures Split([ESC, ESC]) == Pieces([[ESC, ESC]], "") && Split("[A") == Pieces(["[", "A"], "")
  {
    hide FirstComplete, IsCompleteSequence;
    TwoEscapesAreOnePiece();
    FirstPieceExtends([ESC, ESC], "[A");
    var whole, key := [ESC, ESC] + "[A", [ESC] + "[A";
    assert whole[..1] == [ESC] && whole[1..] == key && key[..3] == key && key[3..] == "";
    ArrowKey(key);
    SplitPlain("A");
    SplitPlain("[A");
    assert "A"[..1] == "A" && "A"[1..] == "" && "[A"[..1] == "[" && "[A"[1..] == "A";
    assert ["["] + ["A"] == ["[", "A"];
    SplitStep("");
  }

  lemma SplitPlain(s: string)
    requires s != "" && s[0] != ESC
    ensures var rest := Split(s[1..]); Split(s) == Pieces([s[..1]] + rest.sequences, rest.remainder)
  {
  }

  lemma ArrowKey(key: string)
    requires key == [ESC] + "[A"
    ensures FirstPiece(key) == Some(3)
  {
    assert key[..1] == [ESC] && IsCompleteSequence([ESC]) == Incomplete;
    assert key[..2] == [ESC, '['] && IsCompleteSequence([ESC, '[']) == Incomplete;
    assert key[..3] == key && key[2..] == "A" && IsCompleteSequence(key) == Complete;
    assert FirstComplete(key, 3) == Some(3) && FirstComplete(key, 2) == Some(3);
  }

  lemma NoneStart(s: string)
    requires |s| < |PASTE_START|
    ensures NoPasteStart(s)
  {
  }

  lemma NoReports()
    ensures KittyCodepoint([ESC]) == KittyCodepoint([ESC, ESC]) == KittyCodepoint([ESC] + "[A") == None
    ensures KittyCodepoint("[") == KittyCodepoint("A") == None
  {
  }

  lemma EmitOne(a: string)
    ensures EmitAll(None, [a]) == Emission(KittyCodepoint(a), [Data(a)])
  {
    assert [a][..0] == [];
  }

  lemma EmitTwo(a: string, b: string)
    requires KittyCodepoint(a) == None
    ensures EmitAll(None, [a, b]) == Emission(KittyCodepoint(b), [Data(a), Data(b)])
  {
    EmitOne(a);
    EmitAllPush(None, [a], b);
    assert [a] + [b] == [a, b];
  }

  // Bracketed paste.

  /** After the first part of `ESC [ 200 ~ content ESC [ 201 ~`: the start marker is still being
      collected, or the text after it is. */
  function Within(pending: Option<int>, input: string): State {
    if |input| < |PASTE_START| then State(input, false, "", pending)
    else State("", true, input[|PASTE_START|..], None)
  }

  ghost predicate Contains(s: string, pattern: string) {
    exists i :: MatchesAt(s, pattern, i)
  }

  lemma MatchWithin(content: string, text: string, i: nat)
    requires text <= content + PASTE_END && MatchesAt(text, PASTE_END, i) && i + |PASTE_END| <= |content|
    ensures MatchesAt(content, PASTE_END, i)
  {
    assert content[i..i + |PASTE_END|] == text[i..i + |PASTE_END|];
  }

  lemma MatchAcross(content: string, text: string, i: nat)
    requires text <= content + PASTE_END && MatchesAt(text, PASTE_END, i) && i < |content| < i + |PASTE_END|
    ensures PASTE_END[|content| - i] == ESC
  {
    var c := |content|;
    assert text[c] == (content + PASTE_END)[c] == PASTE_END[0];
    assert text[c] == text[i..i + |PASTE_END|][c - i];
  }

  lemma MatchAfter(content: string, text: string, i: nat)
    requires text <= content + PASTE_END && MatchesAt(text, PASTE_END, i) && |content| <= i
    ensures i == |content|
  {
  }

  /** An end marker in (a part of) the text and its end marker is that end marker. */
  lemma EndMarkerUnique(content: string, text: string, i: nat)
    requires !Contains(content, PASTE_END) && text <= content + PASTE_END
    requires MatchesAt(text, PASTE_END, i)
    ensures i == |content|
  {
    if |content| <= i {
      MatchAfter(content, text, i);
    } else if i + |PASTE_END| <= |content| {
      MatchWithin(content, text, i);
    } else {
      MatchAcross(content, text, i);
    }
  }

  /** The end marker is found where it was put, and not before all of it has arrived. */
  lemma EndMarkerFound(content: string, n: nat)
    requires !Contains(content, PASTE_END) && n <= |content| + |PASTE_END|
    ensures IndexOf((content + PASTE_END)[..n], PASTE_END) ==
            if n == |content| + |PASTE_END| then Some(|content|) else None
  {
    var text := (content + PASTE_END)[..n];
    forall i | MatchesAt(text, PASTE_END, i) ensures i == |content| {
      EndMarkerUnique(content, text, i);
    }
    if n == |content| + |PASTE_END| {
      assert text == content + PASTE_END;
      assert text[|content|..|content| + |PASTE_END|] == PASTE_END;
      assert MatchesAt(text, PASTE_END, |content|);
    }
    hide IndexOf;
  }

  /** A part of the start marker is held back whole. */
  lemma StartMarkerHeldBack(n: nat)
    requires 0 < n < |PASTE_START|
    ensures Split(PASTE_START[..n]) == Pieces([], PASTE_START[..n])
  {
    var data := PASTE_START[..n];
    forall k | 1 <= k <= n ensures IsCompleteSequence(data[..k]) == Incomplete {
      assert data[..k] == PASTE_START[..k];
      if k >= 3 {
        assert data[..k][2..][k - 3] == PASTE_START[k - 1];
        assert PASTE_START[k - 1] in "200";
        assert data[..k][1] == '[' && data[..k][2] == '2';
      }
    }
  }

  lemma PasteChunk(pending: Option<int>, content: string, before: string, chunk: string)
    requires !Contains(content, PASTE_END) && chunk != ""
    requires before + chunk <= PASTE_START + (content + PASTE_END)
    ensures Process(Within(pending, before), chunk) ==
            if before + chunk == PASTE_START + (content + PASTE_END) then Output(Idle(None), [Paste(content)])
            else Output(Within(pending, before + chunk), [])
  {
    hide Process, TakePaste;
    var after, start := before + chunk, |PASTE_START|;
    if |after| < start {
      assert after == PASTE_START[..|after|];
      StartMarkerHeldBack(|after|);
      StartHeldBack(pending, before, chunk);
    } else {
      var text := after[start..];
      assert text == (content + PASTE_END)[..|text|];
      assert after == PASTE_START + text;
      PasteTaken(pending, content, |text|);
      if |before| < start {
        FirstTextChunk(pending, before, chunk, text);
      } else {
        assert text == before[start..] + chunk;
        TextChunk(before[start..], chunk);
      }
    }
  }

  /** Input that is part of a sequence and too short for a start marker is kept. */
  lemma StartHeldBack(pending: Option<int>, before: string, chunk: string)
    requires chunk != "" && |before + chunk| < |PASTE_START|
    requires Split(before + chunk) == Pieces([], before + chunk)
    ensures Process(Idle(pending).(buffer := before), chunk) == Output(Idle(pending).(buffer := before + chunk), [])
  {
    assert IndexOf(before + chunk, PASTE_START) == None;
    assert EmitAll(pending, []) == Emission(pending, []);
    hide Split, EmitAll, TakePaste, BeginPaste, IndexOf;
  }

  lemma TextChunk(text: string, chunk: string)
    requires chunk != ""
    ensures Process(State("", true, text, None), chunk) == TakePaste(State("", true, text + chunk, None))
  {
    hide TakePaste, BeginPaste;
    assert "" + chunk == chunk;
  }

  /** The start marker is completed. */
  lemma FirstTextChunk(pending: Option<int>, buffer: string, chunk: string, text: string)
    requires chunk != "" && buffer + chunk == PASTE_START + text
    ensures Process(Idle(pending).(buffer := buffer), chunk) == TakePaste(State("", true, text, None))
  {
    var all := buffer + chunk;
    assert all[0..|PASTE_START|] == PASTE_START;
    assert MatchesAt(all, PASTE_START, 0);
    NothingBefore(all, pending);
    hide Split, EmitAll, TakePaste;
    assert all[|PASTE_START|..] == text;
    var rest := TakePaste(State("", true, text, None));
    assert [] + rest.events == rest.events;
  }

  lemma PasteTaken(pending: Option<int>, content: string, n: nat)
    requires !Contains(content, PASTE_END) && n <= |content| + |PASTE_END|
    ensures var text := (content + PASTE_END)[..n];
            TakePaste(State("", true, text, None)) ==
            if n == |content| + |PASTE_END| then Output(Idle(None), [Paste(content)])
            else Output(State("", true, text, None), [])
  {
    EndMarkerFound(content, n);
    var text := (content + PASTE_END)[..n];
    if n == |content| + |PASTE_END| {
      assert text == content + PASTE_END;
      assert text[..|content|] == content;
      assert text[|content| + |PASTE_END|..] == "";
      assert [Paste(content)] + [] == [Paste(content)];
    }
  }

  lemma {:induction false} PastePrefix(pending: Option<int>, content: string, chunks: seq<string>)
    requires !Contains(content, PASTE_END)
    requires AllNonEmpty(chunks)
    requires Flatten(chunks) <= PASTE_START + (content + PASTE_END)
    ensures ProcessAll(Idle(pending), chunks) ==
            if Flatten(chunks) == PASTE_START + (content + PASTE_END) then Output(Idle(None), [Paste(content)])
            else Output(Within(pending, Flatten(chunks)), [])
  {
    hide Process, Contains;
    if chunks != [] {
      var front, last := chunks[..|chunks| - 1], chunks[|chunks| - 1];
      assert chunks == front + [last];
      FlattenPush(front, last);
      PastePrefix(pending, content, front);
      PasteChunk(pending, content, Flatten(front), last);
    }
  }

  /** However a bracketed paste is cut into chunks, also inside its markers, it is one event with
      exactly the pasted text, and nothing is left over. */
  lemma BracketedPaste(pending: Option<int>, content: string, chunks: seq<string>)
    requires !Contains(content, PASTE_END)
    requires AllNonEmpty(chunks)
    requires Flatten(chunks) == PASTE_START + content + PASTE_END
    ensures ProcessAll(Idle(pending), chunks) == Output(Idle(None), [Paste(content)])
  {
    assert PASTE_START + content + PASTE_END == PASTE_START + (content + PASTE_END);
    PastePrefix(pending, content, chunks);
  }
}
