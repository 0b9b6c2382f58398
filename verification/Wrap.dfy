/** Wrapping text with codes in it: no grapheme but blanks is lost, every grapheme keeps its style. */
module Wrap {
  import opened Ansi
  import opened StyledText

  datatype Kind = SpaceKind | WordKind | CjkKind

  function KindOf(g: Grapheme): Kind {
    if g.PlainSpace() then SpaceKind else if g.cjk then CjkKind else WordKind
  }

  predicate OfKind(token: Line, kind: Kind) {
    token != [] && forall k :: 0 <= k < |token| && token[k].Glyph? ==> KindOf(token[k].grapheme) == kind
  }

  predicate HasGlyph(line: Line) {
    exists k :: 0 <= k < |line| && line[k].Glyph?
  }

  /** Tokens of one kind each; two neighbours differ in kind unless they are single CJK graphemes. */
  predicate Tokenized(tokens: seq<Line>, kinds: seq<Kind>) {
    && |tokens| == |kinds|
    && (forall k :: 0 <= k < |tokens| ==> OfKind(tokens[k], kinds[k]) && HasGlyph(tokens[k]))
    && (forall k :: 0 <= k < |tokens| - 1 ==> kinds[k] != kinds[k + 1] || kinds[k] == CjkKind)
  }

  lemma ConcatPush(tokens: seq<Line>, token: Line)
    ensures Concat(tokens + [token]) == Concat(tokens) + token
  {
    assert (tokens + [token])[..|tokens|] == tokens;
  }

  lemma TokenizedPush(tokens: seq<Line>, kinds: seq<Kind>, token: Line, kind: Kind)
    requires Tokenized(tokens, kinds) && OfKind(token, kind) && HasGlyph(token)
    requires tokens == [] || kinds[|kinds| - 1] != kind || kind == CjkKind
    ensures Tokenized(tokens + [token], kinds + [kind])
    ensures Concat(tokens + [token]) == Concat(tokens) + token
  {
    ConcatPush(tokens, token);
  }

  /** Part of the text split so far: complete tokens, the token being built, codes not yet attached. */
  ghost predicate Splitting(done: Line, tokens: seq<Line>, kinds: seq<Kind>, current: Line, kind: Kind, pending: Line) {
    && Concat(tokens) + current + pending == done
    && Tokenized(tokens, kinds)
    && AllEscapes(pending)
    && (current != [] ==> OfKind(current, kind) && HasGlyph(current) && kind != CjkKind)
    && (tokens != [] ==> kinds[|kinds| - 1] == CjkKind || (current != [] && kinds[|kinds| - 1] != kind))
    && (tokens == [] && current == [] ==> pending == done)
  }

  lemma SplitEscape(done: Line, tokens: seq<Line>, kinds: seq<Kind>, current: Line, kind: Kind, pending: Line,
                    item: Item)
    requires Splitting(done, tokens, kinds, current, kind, pending) && item.Escape?
    ensures Splitting(done + [item], tokens, kinds, current, kind, pending + [item])
  {
    assert Concat(tokens) + current + (pending + [item]) == Concat(tokens) + current + pending + [item];
  }

  lemma SplitSame(done: Line, tokens: seq<Line>, kinds: seq<Kind>, current: Line, kind: Kind, pending: Line, item: Item)
    requires Splitting(done, tokens, kinds, current, kind, pending) && item.Glyph?
    requires KindOf(item.grapheme) != CjkKind && (current == [] || KindOf(item.grapheme) == kind)
    ensures Splitting(done + [item], tokens, kinds, current + pending + [item], KindOf(item.grapheme), [])
  {
    WithGlyph(current, pending, item, KindOf(item.grapheme));
    assert Concat(tokens) + (current + pending + [item]) + [] == Concat(tokens) + current + pending + [item];
  }

  lemma SplitOther(done: Line, tokens: seq<Line>, kinds: seq<Kind>, current: Line, kind: Kind, pending: Line,
                   item: Item)
    requires Splitting(done, tokens, kinds, current, kind, pending) && item.Glyph? && current != []
    requires KindOf(item.grapheme) != CjkKind && KindOf(item.grapheme) != kind
    ensures Splitting(done + [item], tokens + [current], kinds + [kind], pending + [item], KindOf(item.grapheme), [])
  {
    TokenizedPush(tokens, kinds, current, kind);
    WithGlyph([], pending, item, KindOf(item.grapheme));
    assert [] + pending + [item] == pending + [item];
    assert Concat(tokens) + current + (pending + [item]) + [] == Concat(tokens) + current + pending + [item];
  }

  lemma SplitCjk(done: Line, tokens: seq<Line>, kinds: seq<Kind>, current: Line, kind: Kind, pending: Line, item: Item)
    requires Splitting(done, tokens, kinds, current, kind, pending) && item.Glyph? && KindOf(item.grapheme) == CjkKind
    ensures var flushed := if current != [] then tokens + [current] else tokens;
            var flushedKinds := if current != [] then kinds + [kind] else kinds;
            Splitting(done + [item], flushed + [pending + [item]], flushedKinds + [CjkKind], [], kind, [])
  {
    hide Splitting, Tokenized, Concat, OfKind, HasGlyph, KindOf, AllEscapes;
    var flushed := if current != [] then tokens + [current] else tokens;
    var flushedKinds := if current != [] then kinds + [kind] else kinds;
    Flush(done, tokens, kinds, current, kind, pending);
    WithGlyph([], pending, item, CjkKind);
    assert [] + pending + [item] == pending + [item];
    TokenizedPush(flushed, flushedKinds, pending + [item], CjkKind);
    assert Concat(flushed) + (pending + [item]) == Concat(flushed) + pending + [item];
    SplitNothing(done + [item], flushed + [pending + [item]], flushedKinds + [CjkKind], kind);
  }

  lemma SplitNothing(done: Line, tokens: seq<Line>, kinds: seq<Kind>, kind: Kind)
    requires Concat(tokens) == done && Tokenized(tokens, kinds) && tokens != [] && kinds[|kinds| - 1] == CjkKind
    ensures Splitting(done, tokens, kinds, [], kind, [])
  {
    hide Tokenized, Concat;
    assert done + [] + [] == done;
  }

  lemma Flush(done: Line, tokens: seq<Line>, kinds: seq<Kind>, current: Line, kind: Kind, pending: Line)
    requires Splitting(done, tokens, kinds, current, kind, pending)
    ensures var flushed := if current != [] then tokens + [current] else tokens;
            var flushedKinds := if current != [] then kinds + [kind] else kinds;
            && Tokenized(flushed, flushedKinds) && Concat(flushed) + pending == done && AllEscapes(pending)
            && |flushed| == |flushedKinds|
  {
    hide AllEscapes;
    if current != [] {
      TokenizedPush(tokens, kinds, current, kind);
    } else {
      assert Concat(tokens) + [] == Concat(tokens);
    }
  }

  // Splitting into tokens.

  /** The splitter's variables: complete tokens, the token being built and its kind, codes held back. */
  datatype Splitter = Splitter(tokens: seq<Line>, current: Line, kind: Kind, pending: Line)

  function Flushed(s: Splitter): seq<Line> {
    if s.current != [] then s.tokens + [s.current] else s.tokens
  }

  /** Codes go with the grapheme after them. */
  function SplitItem(s: Splitter, item: Item): Splitter {
    match item
    case Escape(_) => s.(pending := s.pending + [item])
    case Glyph(g) =>
      if KindOf(g) == CjkKind then Splitter(Flushed(s) + [s.pending + [item]], [], s.kind, [])
      else if s.current != [] && s.kind != KindOf(g) then Splitter(Flushed(s), s.pending + [item], KindOf(g), [])
      else Splitter(s.tokens, s.current + s.pending + [item], KindOf(g), [])
  }

  function SplitItems(text: Line): Splitter {
    if text == [] then Splitter([], [], WordKind, [])
    else SplitItem(SplitItems(text[..|text| - 1]), text[|text| - 1])
  }

  /** Codes after the last grapheme go to the last token. */
  function TokensOf(text: Line): seq<Line> {
    var s := SplitItems(text);
    if s.current != [] then s.tokens + [s.current + s.pending]
    else if s.pending == [] then s.tokens
    else if s.tokens != [] then s.tokens[|s.tokens| - 1 := s.tokens[|s.tokens| - 1] + s.pending]
    else [s.pending]
  }

  lemma SplitPush(text: Line, item: Item)
    ensures SplitItems(text + [item]) == SplitItem(SplitItems(text), item)
  {
    assert (text + [item])[..|text|] == text;
  }

  method SplitIntoTokens(text: Line) returns (tokens: seq<Line>)
    ensures tokens == TokensOf(text)
  {
    tokens := [];
    var current: Line := [];
    var pendingAnsi: Line := [];
    var currentKind := WordKind;
    var i := 0;
    while i < |text|
      invariant 0 <= i <= |text|
      invariant SplitItems(text[..i]) == Splitter(tokens, current, currentKind, pendingAnsi)
    {
      assert text[..i + 1] == text[..i] + [text[i]];
      SplitPush(text[..i], text[i]);
      match text[i] {
        case Escape(_) =>
          pendingAnsi := pendingAnsi + [text[i]];
        case Glyph(segment) =>
          var segmentKind := KindOf(segment);
          if segmentKind == CjkKind {
            if current != [] {
              tokens, current := tokens + [current], [];
            }
            tokens := tokens + [pendingAnsi + [text[i]]];
          } else if current != [] && currentKind != segmentKind {
            tokens := tokens + [current];
            current, currentKind := pendingAnsi + [text[i]], segmentKind;
          } else {
            current, currentKind := current + pendingAnsi + [text[i]], segmentKind;
          }
          pendingAnsi := [];
      }
      i := i + 1;
    }
    assert text[..i] == text;
    if pendingAnsi != [] {
      if current != [] {
        current := current + pendingAnsi;
      } else if |tokens| > 0 {
        tokens := tokens[|tokens| - 1 := tokens[|tokens| - 1] + pendingAnsi];
      } else {
        current := pendingAnsi;
      }
    } else {
      assert current + pendingAnsi == current;
    }
    if current != [] {
      tokens := tokens + [current];
    }
  }

  lemma {:induction false} SplitKeeps(text: Line) returns (kinds: seq<Kind>)
    ensures var s := SplitItems(text); Splitting(text, s.tokens, kinds, s.current, s.kind, s.pending)
  {
    if text == [] {
      kinds := [];
    } else {
      hide Splitting, Tokenized, AllEscapes, Concat, KindOf;
      var front, item := text[..|text| - 1], text[|text| - 1];
      var s := SplitItems(front);
      kinds := SplitKeeps(front);
      assert text == front + [item];
      if item.Escape? {
        SplitEscape(front, s.tokens, kinds, s.current, s.kind, s.pending, item);
      } else if KindOf(item.grapheme) == CjkKind {
        SplitCjk(front, s.tokens, kinds, s.current, s.kind, s.pending, item);
        kinds := (if s.current != [] then kinds + [s.kind] else kinds) + [CjkKind];
      } else if s.current != [] && s.kind != KindOf(item.grapheme) {
        SplitOther(front, s.tokens, kinds, s.current, s.kind, s.pending, item);
        kinds := kinds + [s.kind];
      } else {
        SplitSame(front, s.tokens, kinds, s.current, s.kind, s.pending, item);
      }
    }
  }

  /** The tokens put together are the text; each is of one kind and holds a grapheme. */
  lemma TokensOfText(text: Line) returns (kinds: seq<Kind>)
    requires !AllEscapes(text)
    ensures Concat(TokensOf(text)) == text && Tokenized(TokensOf(text), kinds)
  {
    kinds := SplitKeeps(text);
    var s := SplitItems(text);
    FinishKeeps(text, s, kinds);
    if s.current != [] { kinds := kinds + [s.kind]; }
  }

  lemma FinishKeeps(text: Line, s: Splitter, kinds: seq<Kind>)
    requires !AllEscapes(text) && Splitting(text, s.tokens, kinds, s.current, s.kind, s.pending)
    ensures var tokens := if s.current != [] then s.tokens + [s.current + s.pending]
                          else if s.pending == [] then s.tokens
                          else if s.tokens != [] then s.tokens[|s.tokens| - 1 := s.tokens[|s.tokens| - 1] + s.pending]
                          else [s.pending];
            Concat(tokens) == text && Tokenized(tokens, if s.current != [] then kinds + [s.kind] else kinds)
  {
    if s.current != [] {
      WithEscapes(s.current, s.pending, s.kind);
      TokenizedPush(s.tokens, kinds, s.current + s.pending, s.kind);
      assert Concat(s.tokens) + (s.current + s.pending) == text;
    } else {
      assert s.tokens != [];
      assert Concat(s.tokens) + s.current == Concat(s.tokens);
      LastTokenTakes(s.tokens, kinds, s.pending);
      assert s.pending == [] ==> Concat(s.tokens) + s.pending == Concat(s.tokens);
    }
  }

  lemma WithGlyph(current: Line, pending: Line, item: Item, kind: Kind)
    requires AllEscapes(pending) && item.Glyph? && KindOf(item.grapheme) == kind
    requires current == [] || OfKind(current, kind)
    ensures var token := current + pending + [item]; OfKind(token, kind) && HasGlyph(token)
  {
    var token := current + pending + [item];
    assert token[|token| - 1].Glyph?;
  }

  lemma WithEscapes(current: Line, pending: Line, kind: Kind)
    requires AllEscapes(pending) && OfKind(current, kind) && HasGlyph(current)
    ensures OfKind(current + pending, kind) && HasGlyph(current + pending)
  {
    var k :| 0 <= k < |current| && current[k].Glyph?;
    assert (current + pending)[k].Glyph?;
  }

  lemma LastTokenTakes(tokens: seq<Line>, kinds: seq<Kind>, pending: Line)
    requires Tokenized(tokens, kinds) && tokens != [] && AllEscapes(pending)
    ensures var longer := tokens[|tokens| - 1 := tokens[|tokens| - 1] + pending];
            Tokenized(longer, kinds) && Concat(longer) == Concat(tokens) + pending
  {
    var n := |tokens| - 1;
    WithEscapes(tokens[n], pending, kinds[n]);
    assert tokens[n := tokens[n] + pending][..n] == tokens[..n];
  }

  predicate EndsInGlyph(token: Line) {
    token != [] && token[|token| - 1].Glyph?
  }

  /** A CJK grapheme is the only grapheme of its token. */
  predicate Alone(token: Line) {
    forall i, j :: 0 <= i < |token| && 0 <= j < |token| && i != j && token[i].Glyph? && token[j].Glyph? ==>
      KindOf(token[i].grapheme) != CjkKind
  }

  ghost predicate WellSplit(s: Splitter) {
    && (forall k :: 0 <= k < |s.tokens| ==> EndsInGlyph(s.tokens[k]) && Alone(s.tokens[k]))
    && (s.current != [] ==> EndsInGlyph(s.current) && OfKind(s.current, s.kind) && s.kind != CjkKind)
    && AllEscapes(s.pending)
  }

  lemma KindIsAlone(token: Line, kind: Kind)
    requires OfKind(token, kind) && kind != CjkKind
    ensures Alone(token)
  {
  }

  lemma OneIsAlone(codes: Line, item: Item)
    requires AllEscapes(codes)
    ensures Alone(codes + [item])
  {
  }

  lemma ItemIsWellSplit(s: Splitter, item: Item)
    requires WellSplit(s)
    ensures WellSplit(SplitItem(s, item))
  {
    hide Alone, KindOf;
    if s.current != [] { KindIsAlone(s.current, s.kind); }
    if item.Glyph? { OneIsAlone(s.pending, item); }
  }

  lemma {:induction false} TextIsWellSplit(text: Line)
    ensures WellSplit(SplitItems(text))
  {
    hide WellSplit, SplitItem;
    if text == [] {
      NothingSplit();
    } else {
      TextIsWellSplit(text[..|text| - 1]);
      ItemIsWellSplit(SplitItems(text[..|text| - 1]), text[|text| - 1]);
    }
  }

  lemma NothingSplit()
    ensures WellSplit(SplitItems([]))
  {
  }

  lemma CodesAreAlone(token: Line, codes: Line)
    requires Alone(token) && AllEscapes(codes)
    ensures Alone(token + codes)
  {
    hide KindOf;
  }

  /** Codes go with the grapheme after them, those after the last grapheme with the last token; and every CJK
      grapheme is a token of its own. */
  lemma CodesGoWithGraphemes(text: Line)
    ensures var tokens := TokensOf(text);
            && (forall k :: 0 <= k < |tokens| - 1 ==> EndsInGlyph(tokens[k]))
            && (forall k :: 0 <= k < |tokens| ==> Alone(tokens[k]))
  {
    hide Alone, SplitItems, KindOf;
    TextIsWellSplit(text);
    var s := SplitItems(text);
    if s.current != [] {
      KindIsAlone(s.current, s.kind);
      CodesAreAlone(s.current, s.pending);
    } else if s.tokens != [] {
      CodesAreAlone(s.tokens[|s.tokens| - 1], s.pending);
    } else {
      EscapesAreAlone(s.pending);
    }
  }

  lemma EscapesAreAlone(codes: Line)
    requires AllEscapes(codes)
    ensures Alone(codes)
  {
  }

  // Breaking and joining lines.

  /** No grapheme is wider than a line. */
  predicate Fitting(line: Line, width: nat) {
    forall k :: 0 <= k < |line| && line[k].Glyph? ==> line[k].grapheme.width <= width
  }

  /** Every grapheme is at least one and at most `width` columns wide. */
  predicate Narrow(line: Line, width: nat) {
    forall k :: 0 <= k < |line| && line[k].Glyph? ==> 1 <= line[k].grapheme.width <= width
  }

  lemma NarrowFits(line: Line, width: nat)
    ensures Narrow(line, width) ==> Fitting(line, width)
  {
  }

  /** The only blanks are plain spaces. */
  predicate OnlyPlainSpaces(line: Line) {
    forall k :: 0 <= k < |line| && line[k].Glyph? && line[k].grapheme.Blank() ==> line[k].grapheme.PlainSpace()
  }

  lemma ReadEachPush(lines: seq<Line>, line: Line)
    ensures ReadEach(lines + [line]) == ReadEach(lines) + Read(line, PLAIN)
  {
    assert (lines + [line])[..|lines|] == lines;
  }

  lemma {:induction false} ReadEachAppend(a: seq<Line>, b: seq<Line>)
    ensures ReadEach(a + b) == ReadEach(a) + ReadEach(b)
  {
    hide Read;
    if b == [] {
      assert a + b == a;
    } else {
      var front, last := b[..|b| - 1], b[|b| - 1];
      ReadEachAppend(a, front);
      assert a + b == (a + front) + [last];
      ReadEachPush(a + front, last);
      assert ReadEach(a) + ReadEach(front) + Read(last, PLAIN) == ReadEach(a) + (ReadEach(front) + Read(last, PLAIN));
    }
  }

  lemma OneItem(item: Item, s: Style)
    ensures After([item], s) == if item.Escape? then Apply(s, item.code) else s
    ensures Read([item], s) == if item.Escape? then [] else [Styled(item.grapheme, s)]
    ensures Width([item]) == if item.Escape? then 0 else item.grapheme.width
  {
    assert [item][..0] == [];
  }

  /** The lines written so far and the current line read as `done` does, with nothing left out. */
  ghost predicate Broken(start: Style, done: Line, lines: seq<Line>, current: Line, now: Style) {
    && ReadEach(lines) + Read(current, PLAIN) == Read(done, start)
    && After(current, PLAIN) == now == After(done, start)
    && Proper(now)
  }

  lemma BrokenAdd(start: Style, done: Line, lines: seq<Line>, current: Line, now: Style, item: Item)
    requires Broken(start, done, lines, current, now)
    ensures Broken(start, done + [item], lines, current + [item], if item.Escape? then Apply(now, item.code) else now)
  {
    OneItem(item, now);
    Appended(current, [item], PLAIN);
    Appended(done, [item], start);
    if item.Escape? {
      ApplyKeepsProper(now, item.code);
    }
    hide Proper, Apply, Read, After, ReadEach;
    var r := Read([item], now);
    assert ReadEach(lines) + (Read(current, PLAIN) + r) == ReadEach(lines) + Read(current, PLAIN) + r;
  }

  lemma BrokenNewline(start: Style, done: Line, lines: seq<Line>, current: Line, now: Style)
    requires Broken(start, done, lines, current, now)
    ensures Broken(start, done, lines + [current + Codes(LineEndReset(now))], Codes(ActiveCodes(now)), now)
  {
    ClosedOff(current, LineEndReset(now));
    ReadEachPush(lines, current + Codes(LineEndReset(now)));
    Restored(now, []);
    assert Codes(ActiveCodes(now)) + [] == Codes(ActiveCodes(now));
    hide Proper, ActiveCodes, LineEndReset, ReadEach;
    assert Read(done, start) + [] == Read(done, start);
  }

  predicate AllWithin(lines: seq<Line>, width: nat) {
    forall k :: 0 <= k < |lines| ==> Width(lines[k]) <= width
  }

  /** The widths of the lines written and of the current line. */
  ghost predicate Measured(word: Line, width: nat, done: Line, lines: seq<Line>, current: Line, currentWidth: nat) {
    && Width(current) == currentWidth
    && (lines != [] ==> current != [])
    && (Fitting(word, width) ==> AllWithin(lines, width) && currentWidth <= width)
    && (Narrow(word, width) && HasGlyph(done) ==> currentWidth > 0)
  }

  lemma MeasuredEscape(word: Line, width: nat, done: Line, lines: seq<Line>, current: Line, currentWidth: nat,
                       item: Item)
    requires Measured(word, width, done, lines, current, currentWidth) && item.Escape?
    ensures Measured(word, width, done + [item], lines, current + [item], currentWidth)
  {
    WidthPush(current, item);
    hide Width, Narrow, Fitting, AllWithin;
    if HasGlyph(done + [item]) {
      var k :| 0 <= k < |done + [item]| && (done + [item])[k].Glyph?;
      assert done[k].Glyph?;
    }
  }

  lemma MeasuredGlyph(word: Line, width: nat, done: Line, lines: seq<Line>, current: Line, currentWidth: nat,
                      item: Item)
    requires Measured(word, width, done, lines, current, currentWidth) && item.Glyph? && item in word
    requires Fitting(word, width) ==> currentWidth + item.grapheme.width <= width
    ensures Measured(word, width, done + [item], lines, current + [item], currentWidth + item.grapheme.width)
  {
    WidthPush(current, item);
    hide Width, AllWithin;
  }

  /** A new line starts before the grapheme that does not fit. */
  lemma MeasuredNewline(word: Line, width: nat, done: Line, lines: seq<Line>, current: Line, currentWidth: nat,
                        now: Style, item: Item)
    requires Measured(word, width, done, lines, current, currentWidth) && item.Glyph? && item in word && Proper(now)
    ensures var longer := lines + [current + Codes(LineEndReset(now))];
            Measured(word, width, done + [item], longer, Codes(ActiveCodes(now)) + [item], item.grapheme.width)
  {
    ClosedOff(current, LineEndReset(now));
    Restored(now, []);
    var codes := Codes(ActiveCodes(now));
    assert codes + [] == codes;
    WidthNone();
    WidthPush(codes, item);
    hide Width, Proper, ActiveCodes, LineEndReset, Codes;
  }

  // Breaking a word.

  /** The breaker's variables: the lines, the current line and its width, and the style in force. */
  datatype Breaker = Breaker(lines: seq<Line>, current: Line, width: nat, style: Style)

  /** Ends the current line; the next one starts with the codes for the style in force. */
  function BreakLine(b: Breaker): Breaker {
    Breaker(b.lines + [b.current + Codes(LineEndReset(b.style))], Codes(ActiveCodes(b.style)), 0, b.style)
  }

  function BreakItem(b: Breaker, item: Item, width: nat): Breaker {
    match item
    case Escape(code) => b.(current := b.current + [item], style := Apply(b.style, code))
    case Glyph(g) =>
      var c := if b.width + g.width > width then BreakLine(b) else b;
      c.(current := c.current + [item], width := c.width + g.width)
  }

  function BreakItems(word: Line, width: nat, style: Style): Breaker {
    if word == [] then Breaker([], Codes(ActiveCodes(style)), 0, style)
    else BreakItem(BreakItems(word[..|word| - 1], width, style), word[|word| - 1], width)
  }

  function PiecesOf(b: Breaker): (pieces: seq<Line>)
    ensures pieces != []
  {
    if b.current != [] then b.lines + [b.current] else if b.lines != [] then b.lines else [[]]
  }

  /** Breaks a word that is longer than a line. */
  method BreakLongWord(word: Line, width: nat, tracker: AnsiCodeTracker) returns (lines: seq<Line>)
    modifies tracker
    ensures var b := BreakItems(word, width, old(tracker.Now())); lines == PiecesOf(b) && tracker.Now() == b.style
  {
    hide Apply, ActiveCodes, LineEndReset, Codes;
    ghost var start := tracker.Now();
    lines := [];
    var currentLine := Codes(tracker.GetActiveCodes());
    var currentWidth: nat := 0;
    var i := 0;
    while i < |word|
      invariant 0 <= i <= |word|
      invariant BreakItems(word[..i], width, start) == Breaker(lines, currentLine, currentWidth, tracker.Now())
    {
      assert word[..i + 1][..i] == word[..i];
      match word[i] {
        case Escape(code) =>
          currentLine := currentLine + [word[i]];
          tracker.Process(code);
        case Glyph(grapheme) =>
          var graphemeWidth := grapheme.width;
          if currentWidth + graphemeWidth > width {
            lines := lines + [currentLine + Codes(tracker.GetLineEndReset())];
            currentLine := Codes(tracker.GetActiveCodes());
            currentWidth := 0;
          }
          currentLine := currentLine + [word[i]];
          currentWidth := currentWidth + graphemeWidth;
      }
      i := i + 1;
    }
    assert word[..i] == word;
    if currentLine != [] {
      lines := lines + [currentLine];
    }
    if |lines| == 0 {
      lines := [[]];
    }
  }

  lemma LastPiece(word: Line, width: nat, lines: seq<Line>, current: Line, currentWidth: nat)
    requires Measured(word, width, word, lines, current, currentWidth)
    ensures current == [] ==> lines == []
    ensures Fitting(word, width) ==> AllWithin(lines + [current], width)
    ensures Narrow(word, width) && HasGlyph(word) ==> Width(current) > 0
  {
  }

  lemma WidthNone()
    ensures Width([]) == 0
  {
  }

  lemma WidthPush(line: Line, item: Item)
    ensures Width(line + [item]) == Width(line) + (if item.Escape? then 0 else item.grapheme.width)
  {
    OneItem(item, PLAIN);
    Appended(line, [item], PLAIN);
  }

  lemma BrokenStart(s: Style)
    requires Proper(s)
    ensures Broken(s, [], [], Codes(ActiveCodes(s)), s) && Width(Codes(ActiveCodes(s))) == 0
  {
    Restored(s, []);
    assert Codes(ActiveCodes(s)) + [] == Codes(ActiveCodes(s));
  }

  /** What the breaker keeps: nothing of the word so far is left out, and narrow words fit. */
  ghost predicate Breaking(word: Line, width: nat, style: Style, done: Line, b: Breaker) {
    && Broken(style, done, b.lines, b.current, b.style)
    && Proper(b.style)
    && Measured(word, width, done, b.lines, b.current, b.width)
  }

  lemma BreakPush(done: Line, item: Item, width: nat, style: Style)
    ensures BreakItems(done + [item], width, style) == BreakItem(BreakItems(done, width, style), item, width)
  {
    assert (done + [item])[..|done|] == done;
  }

  lemma BreakStart(word: Line, width: nat, style: Style)
    requires Proper(style)
    ensures Breaking(word, width, style, [], BreakItems([], width, style))
  {
    BrokenStart(style);
    hide Broken, Proper, Width, Codes, ActiveCodes, Narrow, Fitting;
  }

  lemma BreakCode(word: Line, width: nat, style: Style, done: Line, b: Breaker, item: Item)
    requires Breaking(word, width, style, done, b) && item.Escape?
    ensures Breaking(word, width, style, done + [item], BreakItem(b, item, width))
  {
    hide Broken, Measured, Proper, Apply;
    BrokenAdd(style, done, b.lines, b.current, b.style, item);
    MeasuredEscape(word, width, done, b.lines, b.current, b.width, item);
    ApplyKeepsProper(b.style, item.code);
  }

  lemma BreakGlyph(word: Line, width: nat, style: Style, done: Line, b: Breaker, item: Item)
    requires Breaking(word, width, style, done, b) && item.Glyph? && item in word
    ensures Breaking(word, width, style, done + [item], BreakItem(b, item, width))
  {
    hide Broken, Measured, Proper, Apply, Codes, ActiveCodes, LineEndReset;
    if b.width + item.grapheme.width > width {
      var c := BreakLine(b);
      BrokenNewline(style, done, b.lines, b.current, b.style);
      MeasuredNewline(word, width, done, b.lines, b.current, b.width, b.style, item);
      BrokenAdd(style, done, c.lines, c.current, c.style, item);
    } else {
      MeasuredGlyph(word, width, done, b.lines, b.current, b.width, item);
      BrokenAdd(style, done, b.lines, b.current, b.style, item);
    }
  }

  lemma {:induction false} BreakKeeps(word: Line, width: nat, style: Style, i: nat)
    requires Proper(style) && i <= |word|
    ensures Breaking(word, width, style, word[..i], BreakItems(word[..i], width, style))
  {
    hide Breaking, BreakItems, BreakItem, Proper;
    if i == 0 {
      BreakStart(word, width, style);
      assert word[..i] == [];
    } else {
      var done, item := word[..i - 1], word[i - 1];
      var b := BreakItems(done, width, style);
      BreakKeeps(word, width, style, i - 1);
      BreakPush(done, item, width, style);
      if item.Escape? {
        BreakCode(word, width, style, done, b, item);
      } else {
        BreakGlyph(word, width, style, done, b, item);
      }
      assert word[..i] == done + [item];
    }
  }

  /** The pieces read, each from the plain style, as the word does from the style before it; they fit. */
  lemma PiecesKeep(word: Line, width: nat, style: Style)
    requires Proper(style)
    ensures var b := BreakItems(word, width, style);
            var pieces := PiecesOf(b);
            var n := |pieces| - 1;
            && Broken(style, word, pieces[..n], pieces[n], b.style)
            && (Fitting(word, width) ==> AllWithin(pieces, width))
            && (Narrow(word, width) && HasGlyph(word) ==> Width(pieces[n]) > 0)
  {
    hide Broken, Measured, Proper, Narrow, Fitting, HasGlyph, AllWithin, Width, BreakItems;
    assert word[..|word|] == word;
    BreakKeeps(word, width, style, |word|);
    var b := BreakItems(word, width, style);
    LastPiece(word, width, b.lines, b.current, b.width);
    var none: seq<Line> := [];
    assert (b.lines + [b.current])[..|b.lines|] == b.lines && none + [[]] == [[]];
  }

  // Wrapping a line, token by token.

  /** The wrapper's variables: the lines written, the current line, its width, and the style in force. */
  datatype Wrapper = Wrapper(lines: seq<Line>, current: Line, length: nat, style: Style)

  /** A long word ends the current line and is broken. */
  function WrapLong(w: Wrapper, token: Line, width: nat): Wrapper {
    var pushed := if w.current != [] then w.lines + [w.current + Codes(LineEndReset(w.style))] else w.lines;
    var b := BreakItems(token, width, w.style);
    var n := |PiecesOf(b)| - 1;
    Wrapper(pushed + PiecesOf(b)[..n], PiecesOf(b)[n], Width(PiecesOf(b)[n]), b.style)
  }

  /** A token that does not fit starts a new line; blanks are left out there. */
  function WrapBreak(w: Wrapper, token: Line): Wrapper {
    var pushed := w.lines + [TrimEnd(w.current) + Codes(LineEndReset(w.style))];
    var codes := Codes(ActiveCodes(w.style));
    if AllBlank(token) then Wrapper(pushed, codes, 0, After(token, w.style))
    else Wrapper(pushed, codes + token, Width(token), After(token, w.style))
  }

  /** One token: it is broken if it is a long word, put on a new line if it does not fit, else appended. */
  function WrapOne(w: Wrapper, token: Line, width: nat): Wrapper {
    if Width(token) > width && !AllBlank(token) then WrapLong(w, token, width)
    else if w.length + Width(token) > width && w.length > 0 then WrapBreak(w, token)
    else Wrapper(w.lines, w.current + token, w.length + Width(token), After(token, w.style))
  }

  function WrapAll(tokens: seq<Line>, width: nat): Wrapper {
    if tokens == [] then Wrapper([], [], 0, PLAIN)
    else WrapOne(WrapAll(tokens[..|tokens| - 1], width), tokens[|tokens| - 1], width)
  }

  function Written(w: Wrapper): seq<Line> {
    if w.current != [] then w.lines + [w.current] else w.lines
  }

  function TrimmedLines(lines: seq<Line>): (r: seq<Line>)
    ensures |r| == |lines| && forall k :: 0 <= k < |lines| ==> r[k] == TrimEnd(lines[k])
  {
    seq(|lines|, k requires 0 <= k < |lines| => TrimEnd(lines[k]))
  }

  /** Wraps one line; a line that fits is left as it is. */
  function WrapLine(line: Line, width: nat): seq<Line> {
    if Width(line) <= width then [line]
    else
      var lines := Written(WrapAll(TokensOf(line), width));
      if lines == [] then [[]] else TrimmedLines(lines)
  }

  /** The loop over the tokens of a line. */
  method WrapTokens(tokens: seq<Line>, width: nat) returns (wrapped: seq<Line>, currentLine: Line)
    ensures var w := WrapAll(tokens, width); wrapped == w.lines && currentLine == w.current
  {
    hide WrapOne;
    var tracker := new AnsiCodeTracker();
    wrapped, currentLine := [], [];
    var currentVisibleLength: nat := 0;
    var k := 0;
    while k < |tokens|
      invariant 0 <= k <= |tokens| && fresh(tracker)
      invariant WrapAll(tokens[..k], width) == Wrapper(wrapped, currentLine, currentVisibleLength, tracker.Now())
    {
      assert tokens[..k + 1][..k] == tokens[..k];
      wrapped, currentLine, currentVisibleLength :=
        WrapToken(tokens[k], width, wrapped, currentLine, currentVisibleLength, tracker);
      k := k + 1;
    }
    assert tokens[..k] == tokens;
  }

  method WrapToken(token: Line, width: nat, wrapped: seq<Line>, currentLine: Line, currentVisibleLength: nat,
                   tracker: AnsiCodeTracker)
    returns (lines: seq<Line>, current: Line, length: nat)
    modifies tracker
    ensures WrapOne(Wrapper(wrapped, currentLine, currentVisibleLength, old(tracker.Now())), token, width)
         == Wrapper(lines, current, length, tracker.Now())
  {
    hide ActiveCodes, LineEndReset, Codes, Width, TrimEnd, AllBlank, BreakItems, PiecesOf;
    var tokenVisibleLength := Width(token);
    var isWhitespace := AllBlank(token);
    if tokenVisibleLength > width && !isWhitespace {
      lines := wrapped;
      if currentLine != [] {
        lines := lines + [currentLine + Codes(tracker.GetLineEndReset())];
      }
      var broken := BreakLongWord(token, width, tracker);
      var n := |broken| - 1;
      return lines + broken[..n], broken[n], Width(broken[n]);
    }
    var totalNeeded := currentVisibleLength + tokenVisibleLength;
    if totalNeeded > width && currentVisibleLength > 0 {
      lines := wrapped + [TrimEnd(currentLine) + Codes(tracker.GetLineEndReset())];
      if isWhitespace {
        current, length := Codes(tracker.GetActiveCodes()), 0;
      } else {
        current, length := Codes(tracker.GetActiveCodes()) + token, tokenVisibleLength;
      }
    } else {
      lines, current, length := wrapped, currentLine + token, totalNeeded;
    }
    UpdateTracker(token, tracker);
  }

  /** Wraps one line; what that promises is proved of `WrapLine`. */
  method WrapSingleLine(line: Line, width: nat) returns (result: seq<Line>)
    ensures result == WrapLine(line, width)
    ensures Wrapped(line, width, result)
  {
    hide Wrapped, TokensOf, WrapAll, TrimEnd, Width;
    WrapLineKeeps(line, width);
    if Width(line) <= width {
      return [line];
    }
    var tokens := SplitIntoTokens(line);
    var wrapped, currentLine := WrapTokens(tokens, width);
    if currentLine != [] {
      wrapped := wrapped + [currentLine];
    }
    if |wrapped| == 0 {
      return [[]];
    }
    result := TrimAll(wrapped);
  }

  method TrimAll(lines: seq<Line>) returns (trimmed: seq<Line>)
    ensures trimmed == TrimmedLines(lines)
  {
    trimmed := [];
    var i := 0;
    while i < |lines|
      invariant 0 <= i <= |lines| && |trimmed| == i
      invariant forall k :: 0 <= k < i ==> trimmed[k] == TrimEnd(lines[k])
    {
      trimmed := trimmed + [TrimEnd(lines[i])];
      i := i + 1;
    }
  }

  // Wrapping a line.

  /** The lines written so far and the current line read as `done` does, but for blanks left out. */
  ghost predicate Kept(done: Line, wrapped: seq<Line>, current: Line, now: Style) {
    && Dropped(Read(done, PLAIN), ReadEach(wrapped) + Read(current, PLAIN))
    && After(current, PLAIN) == now == After(done, PLAIN)
    && Proper(now)
  }

  lemma KeptExtend(done: Line, kept: seq<Styled>, token: Line, now: Style, more: seq<Styled>)
    requires Dropped(Read(done, PLAIN), kept) && After(done, PLAIN) == now && Dropped(Read(token, now), more)
    ensures Dropped(Read(done + token, PLAIN), kept + more) && After(done + token, PLAIN) == After(token, now)
  {
    Appended(done, token, PLAIN);
    DroppedAppend(Read(done, PLAIN), kept, Read(token, now), more);
  }

  lemma KeptAdd(done: Line, wrapped: seq<Line>, current: Line, now: Style, token: Line)
    requires Kept(done, wrapped, current, now)
    ensures Kept(done + token, wrapped, current + token, After(token, now))
  {
    DroppedSame(Read(token, now));
    KeptExtend(done, ReadEach(wrapped) + Read(current, PLAIN), token, now, Read(token, now));
    Appended(current, token, PLAIN);
    AfterIsProper(token, now);
    hide Proper, Dropped, Read, After, ReadEach;
    var r := Read(token, now);
    assert ReadEach(wrapped) + (Read(current, PLAIN) + r) == ReadEach(wrapped) + Read(current, PLAIN) + r;
  }

  /** Writing the current line, trimmed or not, leaves out blanks only. */
  lemma KeptPush(done: Line, wrapped: seq<Line>, current: Line, now: Style, trimmed: Line)
    requires Kept(done, wrapped, current, now) && (trimmed == current || trimmed == TrimEnd(current))
    ensures Dropped(Read(done, PLAIN), ReadEach(wrapped + [trimmed + Codes(LineEndReset(now))]))
  {
    ClosedOff(trimmed, LineEndReset(now));
    ReadEachPush(wrapped, trimmed + Codes(LineEndReset(now)));
    TrimDropsBlanks(current, PLAIN);
    DroppedSame(Read(current, PLAIN));
    DroppedSame(ReadEach(wrapped));
    hide Dropped, Read, ReadEach, Proper, LineEndReset, Codes;
    DroppedAppend(ReadEach(wrapped), ReadEach(wrapped), Read(current, PLAIN), Read(trimmed, PLAIN));
    DroppedTransitive(Read(done, PLAIN), ReadEach(wrapped) + Read(current, PLAIN),
                      ReadEach(wrapped) + Read(trimmed, PLAIN));
  }

  /** A blank token at a line break is left out; any other token starts the next line. */
  lemma KeptBreak(done: Line, wrapped: seq<Line>, current: Line, now: Style, token: Line)
    requires Kept(done, wrapped, current, now)
    ensures var pushed := wrapped + [TrimEnd(current) + Codes(LineEndReset(now))];
            && (AllBlank(token) ==> Kept(done + token, pushed, Codes(ActiveCodes(now)), After(token, now)))
            && Kept(done + token, pushed, Codes(ActiveCodes(now)) + token, After(token, now))
  {
    KeptPush(done, wrapped, current, now, TrimEnd(current));
    var pushed := wrapped + [TrimEnd(current) + Codes(LineEndReset(now))];
    Restored(now, token);
    Restored(now, []);
    var codes := Codes(ActiveCodes(now));
    assert codes + [] == codes;
    assert Read([], now) == [];
    DroppedSame(Read(token, now));
    AfterIsProper(token, now);
    if AllBlank(token) {
      BlankReads(token, now);
      DroppedBlanks(Read(token, now));
    }
    hide Dropped, Read, ReadEach, Proper, LineEndReset, ActiveCodes;
    KeptExtend(done, ReadEach(pushed), token, now, Read(token, now));
    if AllBlank(token) {
      KeptExtend(done, ReadEach(pushed), token, now, []);
    }
  }

  /** A long word starts a new line and is broken. */
  lemma KeptLong(done: Line, wrapped: seq<Line>, current: Line, now: Style, token: Line,
                 pushed: seq<Line>, pieces: seq<Line>, last: Line, after: Style)
    requires Kept(done, wrapped, current, now) && Broken(now, token, pieces, last, after)
    requires pushed == if current != [] then wrapped + [current + Codes(LineEndReset(now))] else wrapped
    ensures Kept(done + token, pushed + pieces, last, after)
  {
    KeptPushed(done, wrapped, current, now, pushed);
    ReadEachAppend(pushed, pieces);
    DroppedSame(Read(token, now));
    AfterAppended(done, token, now);
    hide Dropped, Read, ReadEach, Proper, LineEndReset, Codes, After;
    KeptExtend(done, ReadEach(pushed), token, now, Read(token, now));
    assert ReadEach(pushed) + (ReadEach(pieces) + Read(last, PLAIN))
           == ReadEach(pushed) + ReadEach(pieces) + Read(last, PLAIN);
  }

  lemma AfterAppended(done: Line, token: Line, now: Style)
    requires After(done, PLAIN) == now
    ensures After(done + token, PLAIN) == After(token, now)
  {
    Appended(done, token, PLAIN);
  }

  lemma KeptPushed(done: Line, wrapped: seq<Line>, current: Line, now: Style, pushed: seq<Line>)
    requires Kept(done, wrapped, current, now)
    requires pushed == if current != [] then wrapped + [current + Codes(LineEndReset(now))] else wrapped
    ensures Dropped(Read(done, PLAIN), ReadEach(pushed))
  {
    if current != [] {
      KeptPush(done, wrapped, current, now, current);
    } else {
      assert ReadEach(wrapped) + Read(current, PLAIN) == ReadEach(wrapped);
    }
  }

  // Widths.

  predicate TrimmedWithin(lines: seq<Line>, width: nat) {
    forall k :: 0 <= k < |lines| ==> Width(TrimEnd(lines[k])) <= width
  }

  /** Tokens that fit the hypotheses of the width bound: each takes a column, and blanks do not follow blanks. */
  predicate Regular(tokens: seq<Line>, width: nat) {
    && (forall k :: 0 <= k < |tokens| ==> Narrow(tokens[k], width) && Width(tokens[k]) > 0 && HasGlyph(tokens[k]))
    && (forall k :: 0 <= k < |tokens| - 1 ==> !(AllBlank(tokens[k]) && AllBlank(tokens[k + 1])))
  }

  /** The state in which a line is written too wide: a long word ends a current line that is too wide already,
      and the codes put at its end keep the blanks before them from being trimmed. */
  predicate Overflows(w: Wrapper, token: Line, width: nat) {
    w.length > width && Width(token) > width && !AllBlank(token) && LineEndReset(w.style) != []
  }

  predicate NeverOverflows(tokens: seq<Line>, width: nat, k: nat)
    requires k <= |tokens|
  {
    forall j :: 0 <= j < k ==> !Overflows(WrapAll(tokens[..j], width), tokens[j], width)
  }

  /** Wrapping the line comes to that state. */
  predicate Overfull(line: Line, width: nat) {
    Width(line) > width && !NeverOverflows(TokensOf(line), width, |TokensOf(line)|)
  }

  /** The current line fits once it is trimmed. */
  ghost predicate Tight(w: Wrapper, width: nat) {
    Width(w.current) == w.length && Width(TrimEnd(w.current)) <= width
  }

  lemma TrimIsNarrower(line: Line)
    ensures Width(TrimEnd(line)) <= Width(line)
  {
    TrimDropsBlanks(line, PLAIN);
  }

  lemma EndsInCode(line: Line, codes: seq<Code>)
    requires codes != []
    ensures TrimEnd(line + Codes(codes)) == line + Codes(codes)
  {
  }

  lemma {:induction false} TrimWithBlanks(line: Line, blanks: Line)
    requires AllBlank(blanks)
    ensures TrimEnd(line + blanks) == TrimEnd(line)
  {
    if blanks == [] {
      assert line + blanks == line;
    } else {
      var front := blanks[..|blanks| - 1];
      TrimWithBlanks(line, front);
      assert (line + blanks)[..|line| + |front|] == line + front;
    }
  }

  /** Writing the current line at a long word: it fits unless the state is that one. */
  lemma PushedFits(w: Wrapper, width: nat)
    requires Tight(w, width)
    ensures var pushed := w.current + Codes(LineEndReset(w.style));
            Width(TrimEnd(pushed)) <= width <==> w.length <= width || LineEndReset(w.style) == []
  {
    hide Width, TrimEnd, LineEndReset, Codes;
    var codes := LineEndReset(w.style);
    ClosedOff(w.current, codes);
    if codes == [] {
      NoCodes();
      assert w.current + Codes(codes) == w.current;
    } else {
      EndsInCode(w.current, codes);
    }
  }

  lemma WithinPushIff(lines: seq<Line>, line: Line, width: nat)
    ensures TrimmedWithin(lines + [line], width) <==> TrimmedWithin(lines, width) && Width(TrimEnd(line)) <= width
  {
    hide Width, TrimEnd;
    var longer := lines + [line];
    assert longer[|lines|] == line && forall k :: 0 <= k < |lines| ==> longer[k] == lines[k];
  }

  lemma WithinAppendIff(lines: seq<Line>, more: seq<Line>, width: nat)
    ensures TrimmedWithin(lines + more, width) <==> TrimmedWithin(lines, width) && TrimmedWithin(more, width)
  {
    hide Width, TrimEnd;
    var longer := lines + more;
    assert forall k :: 0 <= k < |lines| ==> longer[k] == lines[k];
    assert forall k :: 0 <= k < |more| ==> longer[|lines| + k] == more[k];
  }

  lemma PiecesTrimmed(pieces: seq<Line>, width: nat)
    requires pieces != [] && AllWithin(pieces, width)
    ensures TrimmedWithin(pieces[..|pieces| - 1], width) && Width(TrimEnd(pieces[|pieces| - 1])) <= width
  {
    hide Width, TrimEnd;
    forall k | 0 <= k < |pieces| ensures Width(TrimEnd(pieces[k])) <= width {
      TrimIsNarrower(pieces[k]);
    }
  }

  lemma LongTight(w: Wrapper, token: Line, width: nat)
    requires Tight(w, width) && Proper(w.style) && Fitting(token, width) && Width(token) > width && !AllBlank(token)
    ensures var v := WrapLong(w, token, width);
            Tight(v, width) && (TrimmedWithin(v.lines, width)
                                <==> TrimmedWithin(w.lines, width) && !Overflows(w, token, width))
  {
    hide Proper, Fitting, Narrow, HasGlyph, Width, Codes, LineEndReset, BreakItems, PiecesOf, Broken, TrimEnd, AllBlank,
         TrimmedWithin, AllWithin;
    PiecesKeep(token, width, w.style);
    var b := BreakItems(token, width, w.style);
    var pieces := PiecesOf(b);
    PiecesTrimmed(pieces, width);
    PushedFits(w, width);
    WithinPushIff(w.lines, w.current + Codes(LineEndReset(w.style)), width);
    var pushed := if w.current != [] then w.lines + [w.current + Codes(LineEndReset(w.style))] else w.lines;
    WithinAppendIff(pushed, pieces[..|pieces| - 1], width);
    WidthNone();
  }

  lemma BreakTight(w: Wrapper, token: Line, width: nat)
    requires Tight(w, width) && (Width(token) <= width || AllBlank(token))
    ensures var v := WrapBreak(w, token);
            Tight(v, width) && (TrimmedWithin(v.lines, width) <==> TrimmedWithin(w.lines, width))
  {
    hide Width, Codes, LineEndReset, ActiveCodes, AllBlank, After, TrimEnd, Read, TrimmedWithin;
    ClosedOff(TrimEnd(w.current), LineEndReset(w.style));
    TrimIsNarrower(TrimEnd(w.current) + Codes(LineEndReset(w.style)));
    WithinPushIff(w.lines, TrimEnd(w.current) + Codes(LineEndReset(w.style)), width);
    var codes := Codes(ActiveCodes(w.style));
    CodesOnly(ActiveCodes(w.style), PLAIN);
    Appended(codes, token, PLAIN);
    TrimIsNarrower(codes);
    TrimIsNarrower(codes + token);
  }

  lemma AddTight(w: Wrapper, token: Line, width: nat)
    requires Tight(w, width) && (Width(token) <= width || AllBlank(token))
    requires w.length + Width(token) <= width || w.length == 0
    ensures Tight(Wrapper(w.lines, w.current + token, w.length + Width(token), After(token, w.style)), width)
  {
    hide Width, After, AllBlank, TrimEnd;
    TrimAdded(w.current, token, width);
  }

  lemma TrimAdded(line: Line, token: Line, width: nat)
    requires Width(TrimEnd(line)) <= width && (Width(token) <= width || AllBlank(token))
    requires Width(line) + Width(token) <= width || Width(line) == 0
    ensures Width(line + token) == Width(line) + Width(token) && Width(TrimEnd(line + token)) <= width
  {
    hide TrimEnd, Width, After, AllBlank, Read;
    Appended(line, token, PLAIN);
    if AllBlank(token) {
      TrimWithBlanks(line, token);
    } else {
      TrimIsNarrower(line + token);
    }
  }

  lemma OneTight(w: Wrapper, token: Line, width: nat)
    requires Tight(w, width) && Proper(w.style) && Fitting(token, width)
    ensures var v := WrapOne(w, token, width);
            Tight(v, width) && (TrimmedWithin(v.lines, width)
                                <==> TrimmedWithin(w.lines, width) && !Overflows(w, token, width))
  {
    hide Tight, Proper, Fitting, Width, AllBlank, WrapLong, WrapBreak, After, TrimmedWithin, LineEndReset;
    if Width(token) > width && !AllBlank(token) {
      LongTight(w, token, width);
    } else if w.length + Width(token) > width && w.length > 0 {
      BreakTight(w, token, width);
    } else {
      AddTight(w, token, width);
    }
  }

  lemma NeverPush(tokens: seq<Line>, width: nat, k: nat)
    requires k < |tokens|
    ensures NeverOverflows(tokens, width, k + 1)
            <==> NeverOverflows(tokens, width, k) && !Overflows(WrapAll(tokens[..k], width), tokens[k], width)
  {
    hide Overflows, WrapAll;
  }

  /** After any number of tokens: the lines written fit if and only if that state has not been reached. */
  lemma {:induction false} WrapTight(tokens: seq<Line>, width: nat, k: nat)
    requires k <= |tokens| && AllFit(tokens, width)
    ensures var w := WrapAll(tokens[..k], width);
            Tight(w, width) && (TrimmedWithin(w.lines, width) <==> NeverOverflows(tokens, width, k))
  {
    hide Tight, Proper, WrapOne, WrapAll, Fitting, TrimmedWithin, NeverOverflows, Overflows;
    if k == 0 {
      TightStart(tokens, width);
    } else {
      WrapTight(tokens, width, k - 1);
      WrapIsProper(tokens, width, k - 1);
      WrapPush(tokens, k - 1, width);
      NeverPush(tokens, width, k - 1);
      OneTight(WrapAll(tokens[..k - 1], width), tokens[k - 1], width);
    }
  }

  lemma TightStart(tokens: seq<Line>, width: nat)
    ensures var w := WrapAll(tokens[..0], width);
            Tight(w, width) && TrimmedWithin(w.lines, width) && NeverOverflows(tokens, width, 0)
  {
    WidthNone();
  }

  // Plain spaces.

  /** With regular tokens the current line fits, or it is a run of blanks at the very start. */
  ghost predicate Steady(tokens: seq<Line>, k: nat, width: nat, w: Wrapper)
    requires k <= |tokens|
  {
    && Width(w.current) == w.length
    && (k == 0 ==> w.current == [] && w.style == PLAIN)
    && (w.length <= width || (w.style == PLAIN && k == 1 && AllBlank(tokens[0])))
    && (w.length == 0 && k > 0 ==> AllBlank(tokens[k - 1]))
  }

  lemma BlankStyle(token: Line, now: Style)
    ensures AllBlank(token) ==> After(token, now) == now
  {
    if AllBlank(token) {
      BlankReads(token, now);
    }
  }

  lemma LongSteady(tokens: seq<Line>, k: nat, width: nat, w: Wrapper)
    requires k < |tokens| && Regular(tokens, width) && Steady(tokens, k, width, w) && Proper(w.style)
    ensures Steady(tokens, k + 1, width, WrapLong(w, tokens[k], width))
  {
    hide Proper, Narrow, Fitting, HasGlyph, Width, Codes, LineEndReset, BreakItems, PiecesOf, Broken, AllBlank;
    PiecesKeep(tokens[k], width, w.style);
    NarrowFits(tokens[k], width);
  }

  lemma BreakSteady(tokens: seq<Line>, k: nat, width: nat, w: Wrapper)
    requires k < |tokens| && Regular(tokens, width) && Steady(tokens, k, width, w)
    requires Width(tokens[k]) <= width || AllBlank(tokens[k])
    ensures Steady(tokens, k + 1, width, WrapBreak(w, tokens[k]))
  {
    hide Width, Codes, LineEndReset, ActiveCodes, AllBlank, After, TrimEnd, Read, Narrow, HasGlyph;
    var codes := Codes(ActiveCodes(w.style));
    CodesOnly(ActiveCodes(w.style), PLAIN);
    Appended(codes, tokens[k], PLAIN);
  }

  lemma AddSteady(tokens: seq<Line>, k: nat, width: nat, w: Wrapper)
    requires k < |tokens| && Regular(tokens, width) && Steady(tokens, k, width, w)
    requires Width(tokens[k]) <= width || AllBlank(tokens[k])
    requires w.length + Width(tokens[k]) <= width || w.length == 0
    ensures var token := tokens[k];
            var v := Wrapper(w.lines, w.current + token, w.length + Width(token), After(token, w.style));
            Steady(tokens, k + 1, width, v)
  {
    hide Width, After, Read, Narrow, HasGlyph, AllBlank;
    Appended(w.current, tokens[k], PLAIN);
    BlankStyle(tokens[k], w.style);
  }

  lemma OneSteady(tokens: seq<Line>, k: nat, width: nat, w: Wrapper)
    requires k < |tokens| && Regular(tokens, width) && Steady(tokens, k, width, w) && Proper(w.style)
    ensures Steady(tokens, k + 1, width, WrapOne(w, tokens[k], width))
  {
    hide Regular, Proper, Width, AllBlank, WrapLong, WrapBreak, After;
    if Width(tokens[k]) > width && !AllBlank(tokens[k]) {
      LongSteady(tokens, k, width, w);
    } else if w.length + Width(tokens[k]) > width && w.length > 0 {
      BreakSteady(tokens, k, width, w);
    } else {
      AddSteady(tokens, k, width, w);
    }
  }

  lemma SteadyIsSafe(tokens: seq<Line>, k: nat, width: nat, w: Wrapper)
    requires k < |tokens| && Steady(tokens, k, width, w)
    ensures !Overflows(w, tokens[k], width)
  {
    hide Width, AllBlank;
  }

  /** Text with plain spaces as its only blanks never comes to that state. */
  lemma {:induction false} RegularIsSafe(tokens: seq<Line>, width: nat, k: nat)
    requires k <= |tokens| && Regular(tokens, width)
    ensures NeverOverflows(tokens, width, k)
    ensures Steady(tokens, k, width, WrapAll(tokens[..k], width))
  {
    hide Steady, Regular, Proper, WrapOne, WrapAll, NeverOverflows, Overflows;
    if k == 0 {
      SteadyStart(tokens, width);
    } else {
      RegularIsSafe(tokens, width, k - 1);
      WrapIsProper(tokens, width, k - 1);
      WrapPush(tokens, k - 1, width);
      NeverPush(tokens, width, k - 1);
      SteadyIsSafe(tokens, k - 1, width, WrapAll(tokens[..k - 1], width));
      OneSteady(tokens, k - 1, width, WrapAll(tokens[..k - 1], width));
    }
  }

  lemma SteadyStart(tokens: seq<Line>, width: nat)
    ensures NeverOverflows(tokens, width, 0) && Steady(tokens, 0, width, WrapAll(tokens[..0], width))
  {
    WidthNone();
  }

  lemma {:induction false} ConcatHas(tokens: seq<Line>, k: nat, j: nat)
    requires k < |tokens| && j < |tokens[k]|
    ensures tokens[k][j] in Concat(tokens)
  {
    if k == |tokens| - 1 {
    } else {
      ConcatHas(tokens[..|tokens| - 1], k, j);
    }
  }

  lemma {:induction false} GlyphWidth(line: Line, width: nat)
    requires Narrow(line, width)
    ensures HasGlyph(line) ==> Width(line) > 0
  {
    if HasGlyph(line) {
      var last := line[|line| - 1];
      if last.Escape? {
        var k :| 0 <= k < |line| && line[k].Glyph?;
        assert line[..|line| - 1][k].Glyph?;
        GlyphWidth(line[..|line| - 1], width);
      }
    }
  }

  lemma TokensAreRegular(text: Line, tokens: seq<Line>, kinds: seq<Kind>, width: nat)
    requires Tokenized(tokens, kinds) && Concat(tokens) == text
    requires Narrow(text, width) && OnlyPlainSpaces(text)
    ensures Regular(tokens, width)
  {
    forall k | 0 <= k < |tokens|
      ensures Narrow(tokens[k], width) && Width(tokens[k]) > 0
      ensures AllBlank(tokens[k]) ==> kinds[k] == SpaceKind
    {
      forall j | 0 <= j < |tokens[k]|
        ensures tokens[k][j] in text
      {
        ConcatHas(tokens, k, j);
      }
      GlyphWidth(tokens[k], width);
    }
  }

  lemma {:induction false} TrimEach(lines: seq<Line>, trimmed: seq<Line>)
    requires |lines| == |trimmed| && forall k :: 0 <= k < |lines| ==> trimmed[k] == TrimEnd(lines[k])
    ensures Dropped(ReadEach(lines), ReadEach(trimmed))
  {
    hide Dropped, Read, TrimEnd;
    if lines == [] {
      DroppedSame([]);
    } else {
      var n := |lines| - 1;
      TrimEach(lines[..n], trimmed[..n]);
      TrimDropsBlanks(lines[n], PLAIN);
      DroppedAppend(ReadEach(lines[..n]), ReadEach(trimmed[..n]), Read(lines[n], PLAIN), Read(trimmed[n], PLAIN));
    }
  }

  lemma KeptStart()
    ensures Kept([], [], [], PLAIN)
  {
  }

  lemma KeptReads(done: Line, wrapped: seq<Line>, current: Line, now: Style)
    requires Kept(done, wrapped, current, now)
    ensures Dropped(Read(done, PLAIN), ReadEach(wrapped) + Read(current, PLAIN)) && Proper(now)
  {
  }

  /** What the wrapper keeps over the tokens so far. */
  ghost predicate Wrapping(done: Line, w: Wrapper) {
    Proper(w.style) && Kept(done, w.lines, w.current, w.style)
  }

  lemma WrapStart(width: nat)
    ensures Wrapping([], WrapAll([], width))
  {
    KeptStart();
    hide Kept;
  }

  lemma WrapPush(tokens: seq<Line>, k: nat, width: nat)
    requires k < |tokens|
    ensures WrapAll(tokens[..k + 1], width) == WrapOne(WrapAll(tokens[..k], width), tokens[k], width)
    ensures Concat(tokens[..k + 1]) == Concat(tokens[..k]) + tokens[k]
  {
    hide WrapOne;
    assert tokens[..k + 1][..k] == tokens[..k];
  }

  lemma {:induction false} WrapKeeps(tokens: seq<Line>, width: nat, k: nat)
    requires k <= |tokens|
    ensures Wrapping(Concat(tokens[..k]), WrapAll(tokens[..k], width))
  {
    hide Wrapping, WrapOne, WrapAll, Concat;
    if k == 0 {
      WrapStart(width);
      NoLines();
      assert tokens[..k] == [];
    } else {
      WrapKeeps(tokens, width, k - 1);
      WrapPush(tokens, k - 1, width);
      WrapOneKeeps(Concat(tokens[..k - 1]), tokens[k - 1], width, WrapAll(tokens[..k - 1], width));
    }
  }

  lemma NoLines()
    ensures Concat([]) == []
  {
  }

  lemma WrapOneKeeps(done: Line, token: Line, width: nat, w: Wrapper)
    requires Wrapping(done, w)
    ensures Wrapping(done + token, WrapOne(w, token, width))
  {
    hide Kept, Proper, ActiveCodes, LineEndReset, Codes, Width, TrimEnd, AllBlank, WrapLong, After;
    AfterIsProper(token, w.style);
    if Width(token) > width && !AllBlank(token) {
      LongKeeps(done, token, width, w);
    } else if w.length + Width(token) > width && w.length > 0 {
      KeptBreak(done, w.lines, w.current, w.style, token);
    } else {
      KeptAdd(done, w.lines, w.current, w.style, token);
    }
  }

  lemma LongKeeps(done: Line, token: Line, width: nat, w: Wrapper)
    requires Wrapping(done, w)
    ensures Wrapping(done + token, WrapLong(w, token, width))
  {
    hide Kept, Proper, LineEndReset, Codes, Width, Broken, Narrow, Fitting, AllWithin, HasGlyph, BreakItems, PiecesOf;
    PiecesKeep(token, width, w.style);
    var b := BreakItems(token, width, w.style);
    var pieces := PiecesOf(b);
    var n := |pieces| - 1;
    var pushed := if w.current != [] then w.lines + [w.current + Codes(LineEndReset(w.style))] else w.lines;
    KeptLong(done, w.lines, w.current, w.style, token, pushed, pieces[..n], pieces[n], b.style);
    KeptReads(done + token, pushed + pieces[..n], pieces[n], b.style);
  }

  // The bound for text with any blanks.

  /** A line without the codes and blanks at its end. */
  function Bare(line: Line): Line {
    if line != [] && (line[|line| - 1].Escape? || BlankItem(line[|line| - 1])) then Bare(line[..|line| - 1]) else line
  }

  predicate BareWithin(lines: seq<Line>, width: nat) {
    forall k :: 0 <= k < |lines| ==> Width(Bare(lines[k])) <= width
  }

  lemma {:induction false} BareIsNarrower(line: Line)
    ensures Width(Bare(line)) <= Width(line)
  {
    if line != [] && (line[|line| - 1].Escape? || BlankItem(line[|line| - 1])) {
      BareIsNarrower(line[..|line| - 1]);
    }
  }

  lemma {:induction false} BareOfTrimmed(line: Line)
    ensures Bare(TrimEnd(line)) == Bare(line)
  {
    if line != [] && BlankItem(line[|line| - 1]) {
      BareOfTrimmed(line[..|line| - 1]);
    }
  }

  lemma {:induction false} BareWithCodes(line: Line, codes: seq<Code>)
    ensures Bare(line + Codes(codes)) == Bare(line)
  {
    if codes == [] {
      assert line + Codes(codes) == line;
    } else {
      var front := codes[..|codes| - 1];
      BareWithCodes(line, front);
      assert (line + Codes(codes))[..|line| + |front|] == line + Codes(front);
    }
  }

  lemma {:induction false} BareWithBlanks(line: Line, blanks: Line)
    requires AllBlank(blanks)
    ensures Bare(line + blanks) == Bare(line)
  {
    if blanks == [] {
      assert line + blanks == line;
    } else {
      var front := blanks[..|blanks| - 1];
      BareWithBlanks(line, front);
      assert (line + blanks)[..|line| + |front|] == line + front;
    }
  }

  predicate AllFit(lines: seq<Line>, width: nat) {
    forall k :: 0 <= k < |lines| ==> Fitting(lines[k], width)
  }

  /** Everything written fits, blanks and codes at its end left out, and so does the current line. */
  ghost predicate Bared(width: nat, w: Wrapper) {
    BareWithin(w.lines, width) && Width(w.current) == w.length && Width(Bare(w.current)) <= width
  }

  lemma BarePush(lines: seq<Line>, line: Line, width: nat)
    requires BareWithin(lines, width) && Width(Bare(line)) <= width
    ensures BareWithin(lines + [line], width)
  {
    hide Bare, Width;
  }

  lemma BareCodes(codes: seq<Code>)
    ensures Bare(Codes(codes)) == [] && Width(Codes(codes)) == 0
  {
    var none: Line := [];
    BareWithCodes(none, codes);
    assert none + Codes(codes) == Codes(codes);
    CodesOnly(codes, PLAIN);
  }

  lemma LongBared(w: Wrapper, token: Line, width: nat)
    requires Bared(width, w) && Proper(w.style) && Fitting(token, width)
    ensures Bared(width, WrapLong(w, token, width))
  {
    hide Proper, Fitting, Narrow, HasGlyph, Bare, Width, Codes, LineEndReset, BreakItems, PiecesOf, Broken;
    PiecesKeep(token, width, w.style);
    BareWithCodes(w.current, LineEndReset(w.style));
    var b := BreakItems(token, width, w.style);
    PiecesBared(w, PiecesOf(b), b.style, width);
  }

  lemma PiecesBared(w: Wrapper, pieces: seq<Line>, style: Style, width: nat)
    requires Bared(width, w) && Bare(w.current + Codes(LineEndReset(w.style))) == Bare(w.current)
    requires pieces != [] && AllWithin(pieces, width)
    ensures var n := |pieces| - 1;
            var pushed := if w.current != [] then w.lines + [w.current + Codes(LineEndReset(w.style))] else w.lines;
            Bared(width, Wrapper(pushed + pieces[..n], pieces[n], Width(pieces[n]), style))
  {
    hide Bare, Width, Codes, LineEndReset;
    forall k | 0 <= k < |pieces| ensures Width(Bare(pieces[k])) <= width {
      BareIsNarrower(pieces[k]);
    }
  }

  lemma BreakBared(w: Wrapper, token: Line, width: nat)
    requires Bared(width, w) && (Width(token) <= width || AllBlank(token))
    ensures Bared(width, WrapBreak(w, token))
  {
    hide BareWithin, Bare, Width, Codes, LineEndReset, ActiveCodes, AllBlank, After, TrimEnd, Read;
    BareOfTrimmed(w.current);
    BareWithCodes(TrimEnd(w.current), LineEndReset(w.style));
    BareCodes(ActiveCodes(w.style));
    WidthNone();
    Appended(Codes(ActiveCodes(w.style)), token, PLAIN);
    BareIsNarrower(Codes(ActiveCodes(w.style)) + token);
    BarePush(w.lines, TrimEnd(w.current) + Codes(LineEndReset(w.style)), width);
  }

  lemma AddBared(w: Wrapper, token: Line, width: nat)
    requires Bared(width, w) && (Width(token) <= width || AllBlank(token))
    requires w.length + Width(token) <= width || w.length == 0
    ensures Bared(width, Wrapper(w.lines, w.current + token, w.length + Width(token), After(token, w.style)))
  {
    hide Bare, Width, After, AllBlank, BareWithin;
    BareAdded(w.current, token, width);
  }

  lemma BareAdded(line: Line, token: Line, width: nat)
    requires Width(Bare(line)) <= width && (Width(token) <= width || AllBlank(token))
    requires Width(line) + Width(token) <= width || Width(line) == 0
    ensures Width(line + token) == Width(line) + Width(token) && Width(Bare(line + token)) <= width
  {
    hide Bare, Width, After, AllBlank, Read;
    Appended(line, token, PLAIN);
    if AllBlank(token) {
      BareWithBlanks(line, token);
    } else {
      BareIsNarrower(line + token);
    }
  }

  lemma OneBared(w: Wrapper, token: Line, width: nat)
    requires Bared(width, w) && Proper(w.style) && Fitting(token, width)
    ensures Bared(width, WrapOne(w, token, width))
  {
    hide Bared, Proper, Fitting, Width, AllBlank, WrapLong, WrapBreak, After;
    if Width(token) > width && !AllBlank(token) {
      LongBared(w, token, width);
    } else if w.length + Width(token) > width && w.length > 0 {
      BreakBared(w, token, width);
    } else {
      AddBared(w, token, width);
    }
  }

  lemma WrapIsProper(tokens: seq<Line>, width: nat, k: nat)
    requires k <= |tokens|
    ensures Proper(WrapAll(tokens[..k], width).style)
  {
    hide Proper, WrapAll, Kept;
    WrapKeeps(tokens, width, k);
  }

  lemma {:induction false} WrapBares(tokens: seq<Line>, width: nat, k: nat)
    requires k <= |tokens| && AllFit(tokens, width)
    ensures Bared(width, WrapAll(tokens[..k], width))
  {
    hide Bared, Proper, WrapOne, WrapAll, Fitting;
    if k == 0 {
      BareStart(width);
      assert tokens[..k] == [];
    } else {
      WrapBares(tokens, width, k - 1);
      WrapIsProper(tokens, width, k - 1);
      WrapPush(tokens, k - 1, width);
      OneBared(WrapAll(tokens[..k - 1], width), tokens[k - 1], width);
    }
  }

  lemma BareStart(width: nat)
    ensures Bared(width, WrapAll([], width))
  {
    WidthNone();
  }

  lemma TokensFit(text: Line, tokens: seq<Line>, width: nat)
    requires Concat(tokens) == text && Fitting(text, width)
    ensures AllFit(tokens, width)
  {
    forall k | 0 <= k < |tokens| ensures Fitting(tokens[k], width) {
      forall j | 0 <= j < |tokens[k]| ensures tokens[k][j] in text {
        ConcatHas(tokens, k, j);
      }
    }
  }

  // What wrapping a line promises.

  /** Only blanks are dropped; a line that fits is left alone. If no grapheme is wider than a line, every line
      fits but for blanks and codes at its end, and all fit exactly unless wrapping comes to that state, which
      narrow text with plain spaces as its only blanks never does. */
  ghost predicate Wrapped(line: Line, width: nat, result: seq<Line>) {
    && result != []
    && (Width(line) <= width ==> result == [line])
    && Dropped(Read(line, PLAIN), ReadEach(result))
    && (Fitting(line, width) ==> BareWithin(result, width))
    && (Fitting(line, width) ==> (AllWithin(result, width) <==> !Overfull(line, width)))
    && (Narrow(line, width) && OnlyPlainSpaces(line) ==> !Overfull(line, width) && AllWithin(result, width))
  }

  lemma FittingLine(line: Line, width: nat)
    requires Width(line) <= width
    ensures Wrapped(line, width, [line])
  {
    hide Dropped, Read, Width, Narrow, Fitting, OnlyPlainSpaces, Bare, NeverOverflows, TokensOf;
    DroppedSame(Read(line, PLAIN));
    OneLineReads(line);
    BareIsNarrower(line);
  }

  lemma OneLineReads(line: Line)
    ensures ReadEach([line]) == Read(line, PLAIN)
  {
    hide Read;
    ReadEachPush([], line);
    assert [] + [line] == [line] && [] + Read(line, PLAIN) == Read(line, PLAIN);
  }

  lemma WrapLineReads(line: Line, width: nat, w: Wrapper)
    requires Dropped(Read(line, PLAIN), ReadEach(w.lines) + Read(w.current, PLAIN))
    ensures var lines := Written(w);
            Dropped(Read(line, PLAIN), ReadEach(if lines == [] then [[]] else TrimmedLines(lines)))
  {
    hide Dropped, Read, ReadEach, TrimEnd;
    ReadEachPush(w.lines, w.current);
    if w.current == [] {
      NothingRead();
      assert ReadEach(w.lines) + [] == ReadEach(w.lines);
    }
    var lines := Written(w);
    TrimEach(lines, TrimmedLines(lines));
    DroppedTransitive(Read(line, PLAIN), ReadEach(lines), ReadEach(TrimmedLines(lines)));
    OneEmptyLine();
  }

  lemma NothingRead()
    ensures Read([], PLAIN) == []
  {
  }

  /** What wrapping promises, for every line and width. */
  lemma WrapLineKeeps(line: Line, width: nat)
    ensures Wrapped(line, width, WrapLine(line, width))
  {
    NarrowFits(line, width);
    hide Dropped, Read, ReadEach, Narrow, Fitting, OnlyPlainSpaces, Width, TokensOf, WrapAll, BareWithin, AllWithin,
         AllEscapes, Tokenized, Written, TrimmedLines, Concat, NeverOverflows;
    if Width(line) <= width {
      FittingLine(line, width);
    } else {
      EscapesTakeNoColumn(line);
      var kinds := TokensOfText(line);
      LongLineKeeps(line, width);
      LongLineIsBare(line, width);
      LongLineFitsIff(line, width);
      PlainLineIsSafe(line, width, kinds);
    }
  }

  lemma LongLineKeeps(line: Line, width: nat)
    requires Concat(TokensOf(line)) == line
    ensures var lines := Written(WrapAll(TokensOf(line), width));
            Dropped(Read(line, PLAIN), ReadEach(if lines == [] then [[]] else TrimmedLines(lines)))
  {
    hide Dropped, Read, ReadEach, TokensOf, WrapAll, Written, TrimmedLines, Kept, Proper, Concat;
    var tokens := TokensOf(line);
    var w := WrapAll(tokens, width);
    assert tokens[..|tokens|] == tokens;
    WrapKeeps(tokens, width, |tokens|);
    KeptReads(line, w.lines, w.current, w.style);
    WrapLineReads(line, width, w);
  }

  lemma LongLineFitsIff(line: Line, width: nat)
    requires Concat(TokensOf(line)) == line
    ensures var tokens := TokensOf(line);
            var lines := Written(WrapAll(tokens, width));
            Fitting(line, width) ==>
              (AllWithin(if lines == [] then [[]] else TrimmedLines(lines), width)
               <==> NeverOverflows(tokens, width, |tokens|))
  {
    hide Fitting, TokensOf, WrapAll, AllWithin, Written, TrimmedLines, AllFit, Tight, Concat, TrimmedWithin,
         NeverOverflows;
    if Fitting(line, width) {
      var tokens := TokensOf(line);
      assert tokens[..|tokens|] == tokens;
      TokensFit(line, tokens, width);
      WrapTight(tokens, width, |tokens|);
      LinesFitIff(WrapAll(tokens, width), width);
    }
  }

  lemma PlainLineIsSafe(line: Line, width: nat, kinds: seq<Kind>)
    requires Concat(TokensOf(line)) == line && Tokenized(TokensOf(line), kinds)
    ensures var tokens := TokensOf(line);
            Narrow(line, width) && OnlyPlainSpaces(line) ==> NeverOverflows(tokens, width, |tokens|)
  {
    hide Narrow, OnlyPlainSpaces, TokensOf, WrapAll, Tokenized, Concat, Regular, Steady, NeverOverflows;
    if Narrow(line, width) && OnlyPlainSpaces(line) {
      TokensAreRegular(line, TokensOf(line), kinds, width);
      RegularIsSafe(TokensOf(line), width, |TokensOf(line)|);
    }
  }

  lemma LongLineIsBare(line: Line, width: nat)
    requires Concat(TokensOf(line)) == line
    ensures var lines := Written(WrapAll(TokensOf(line), width));
            Fitting(line, width) ==> BareWithin(if lines == [] then [[]] else TrimmedLines(lines), width)
  {
    hide Fitting, TokensOf, WrapAll, BareWithin, Written, TrimmedLines, AllFit, Bared, Concat;
    if Fitting(line, width) {
      var tokens := TokensOf(line);
      assert tokens[..|tokens|] == tokens;
      TokensFit(line, tokens, width);
      WrapBares(tokens, width, |tokens|);
      LinesAreBare(WrapAll(tokens, width), width);
    }
  }

  lemma LinesFitIff(w: Wrapper, width: nat)
    requires Tight(w, width)
    ensures var lines := Written(w);
            AllWithin(if lines == [] then [[]] else TrimmedLines(lines), width) <==> TrimmedWithin(w.lines, width)
  {
    hide Width, TrimEnd, TrimmedLines, TrimmedWithin;
    var lines := Written(w);
    WithinPushIff(w.lines, w.current, width);
    TrimmedLinesFit(lines, width);
    if lines == [] {
      EmptyFits(width);
    }
  }

  lemma EmptyFits(width: nat)
    ensures TrimmedWithin([], width) && AllWithin([[]], width)
  {
    WidthNone();
  }

  lemma TrimmedLinesFit(lines: seq<Line>, width: nat)
    ensures AllWithin(TrimmedLines(lines), width) <==> TrimmedWithin(lines, width)
  {
    hide Width, TrimEnd;
    forall k | 0 <= k < |lines| ensures TrimmedLines(lines)[k] == TrimEnd(lines[k]) {
    }
  }

  lemma LinesAreBare(w: Wrapper, width: nat)
    requires Bared(width, w)
    ensures var lines := Written(w); BareWithin(if lines == [] then [[]] else TrimmedLines(lines), width)
  {
    hide Width, TrimEnd, Bare;
    var lines := Written(w);
    BareIsNarrower([]);
    WidthNone();
    forall k | 0 <= k < |lines| ensures Width(Bare(TrimmedLines(lines)[k])) <= width {
      BareOfTrimmed(lines[k]);
    }
  }

  // A line that is too wide.

  predicate Run(line: Line, kind: Kind) {
    line != [] && forall k :: 0 <= k < |line| ==> line[k].Glyph? && KindOf(line[k].grapheme) == kind
  }

  /** The splitter after a run of graphemes of one kind. */
  function AfterRun(s: Splitter, run: Line, kind: Kind): Splitter {
    if s.current != [] && s.kind != kind then Splitter(s.tokens + [s.current], s.pending + run, kind, [])
    else Splitter(s.tokens, s.current + s.pending + run, kind, [])
  }

  lemma RunStarts(s: Splitter, item: Item, kind: Kind)
    requires item.Glyph? && KindOf(item.grapheme) == kind && kind != CjkKind
    ensures SplitItem(s, item) == AfterRun(s, [item], kind)
  {
  }

  lemma RunGoesOn(s: Splitter, run: Line, item: Item, kind: Kind)
    requires run != [] && item.Glyph? && KindOf(item.grapheme) == kind && kind != CjkKind
    ensures SplitItem(AfterRun(s, run, kind), item) == AfterRun(s, run + [item], kind)
  {
    hide KindOf;
    var r := AfterRun(s, run, kind);
    assert r.current + [] == r.current && r.current != [];
    assert s.pending + run + [item] == s.pending + (run + [item]);
    assert s.current + s.pending + run + [item] == s.current + s.pending + (run + [item]);
  }

  /** Graphemes of one kind extend the token being built, or end it and start the next. */
  lemma {:induction false} SplitRun(text: Line, run: Line, kind: Kind)
    requires Run(run, kind) && kind != CjkKind
    ensures SplitItems(text + run) == AfterRun(SplitItems(text), run, kind)
  {
    hide SplitItem, SplitItems, AfterRun, KindOf;
    var front, item := run[..|run| - 1], run[|run| - 1];
    SplitPush(text + front, item);
    assert text + run == text + front + [item] && run == front + [item];
    if front == [] {
      assert text + front == text && run == [item];
      RunStarts(SplitItems(text), item, kind);
    } else {
      SplitRun(text, front, kind);
      RunGoesOn(SplitItems(text), front, item, kind);
    }
  }

  const UNDERLINE := Escape(Sgr("4"))
  const BOLD := Escape(Sgr("1"))
  const TAB := Glyph(Grapheme("\t", 3, true, false))

  /** An underlined word, a space, blanks that are not plain spaces, and bold spaces. */
  function WideInput(word: Line, blanks: Line, spaces: Line): Line {
    [UNDERLINE] + word + [SPACE] + blanks + [BOLD] + spaces
  }

  function WideTokens(word: Line, blanks: Line, spaces: Line): seq<Line> {
    [[UNDERLINE] + word, [SPACE], blanks, [BOLD] + spaces]
  }

  lemma SplitWide(word: Line, blanks: Line, spaces: Line)
    requires Run(word, WordKind) && Run(blanks, WordKind) && Run(spaces, SpaceKind)
    ensures TokensOf(WideInput(word, blanks, spaces)) == WideTokens(word, blanks, spaces)
  {
    var none: Line := [];
    SplitPush(none, UNDERLINE);
    assert none + [UNDERLINE] == [UNDERLINE];
    var one := [UNDERLINE] + word;
    SplitRun([UNDERLINE], word, WordKind);
    assert SplitItems(one) == Splitter([], one, WordKind, []);
    SplitWideRest(one, blanks, spaces);
    assert one + [SPACE] + blanks + [BOLD] + spaces == WideInput(word, blanks, spaces);
  }

  lemma SplitWideRest(one: Line, blanks: Line, spaces: Line)
    requires one != [] && SplitItems(one) == Splitter([], one, WordKind, [])
    requires Run(blanks, WordKind) && Run(spaces, SpaceKind)
    ensures TokensOf(one + [SPACE] + blanks + [BOLD] + spaces) == [one, [SPACE], blanks, [BOLD] + spaces]
  {
    hide SplitItems, SplitItem;
    SplitRun(one, [SPACE], SpaceKind);
    SplitRun(one + [SPACE], blanks, WordKind);
    var none: Line := [];
    assert none + [SPACE] == [SPACE] && none + blanks == blanks && none + [BOLD] == [BOLD];
    var two: seq<Line> := [];
    assert two + [one] + [[SPACE]] == [one, [SPACE]];
    var three := one + [SPACE] + blanks;
    assert SplitItems(three) == Splitter([one, [SPACE]], blanks, WordKind, []);
    SplitCode(three, BOLD);
    SplitRun(three + [BOLD], spaces, SpaceKind);
    assert [BOLD] + spaces + [] == [BOLD] + spaces;
  }

  lemma SplitCode(text: Line, item: Item)
    requires item.Escape?
    ensures var s := SplitItems(text); SplitItems(text + [item]) == s.(pending := s.pending + [item])
  {
    SplitPush(text, item);
  }

  lemma {:induction false} RunKeepsStyle(run: Line, kind: Kind, s: Style)
    requires Run(run, kind)
    ensures After(run, s) == s
  {
    if |run| > 1 {
      RunKeepsStyle(run[..|run| - 1], kind, s);
    }
  }

  /** The wrapper over the four tokens: the word fills the line, the space is left out, the blanks start
      the next line whatever their width, and the bold spaces, a long word to the wrapper, end it. */
  lemma WrapWide(width: nat, word: Line, blanks: Line, spaces: Line)
    requires Run(word, WordKind) && Run(blanks, WordKind) && AllBlank(blanks)
    requires 0 < width == Width([UNDERLINE] + word) && width < Width(blanks) && width < Width([BOLD] + spaces)
    requires Proper(Apply(PLAIN, UNDERLINE.code))
    ensures var s := Apply(PLAIN, UNDERLINE.code);
            var w := WrapAll(WideTokens(word, blanks, spaces), width);
            |w.lines| >= 2 && w.lines[1] == Codes(ActiveCodes(s)) + blanks + Codes(LineEndReset(s))
  {
    hide Width, Apply, ActiveCodes, LineEndReset, Codes, TrimEnd, BreakItems, PiecesOf, AllBlank, WrapAll, After, Run,
         WrapLong, Proper, Read;
    var t := WideTokens(word, blanks, spaces);
    var one := [UNDERLINE] + word;
    var s := Apply(PLAIN, UNDERLINE.code);
    WordStyle(word);
    var w1 := Wrapper([], one, width, s);
    FirstToken(one, width);
    var w2 := WrapOne(w1, [SPACE], width);
    SpaceIsDropped(w1, width);
    var w3 := WrapOne(w2, blanks, width);
    RunKeepsStyle(blanks, WordKind, s);
    Restored(s, blanks);
    assert w3 == Wrapper(w2.lines, Codes(ActiveCodes(s)) + blanks, Width(blanks), s);
    NotBlank(BOLD, spaces);
    LongToken(w3, [BOLD] + spaces, width);
    FourTokens(t, width);
  }

  lemma FourTokens(t: seq<Line>, width: nat)
    requires |t| == 4
    ensures WrapAll(t, width)
         == WrapOne(WrapOne(WrapOne(WrapOne(Wrapper([], [], 0, PLAIN), t[0], width), t[1], width), t[2], width),
                    t[3], width)
  {
    hide WrapOne, WrapAll;
    WrapPush(t, 3, width);
    WrapPush(t, 2, width);
    WrapPush(t, 1, width);
    WrapPush(t, 0, width);
    assert t[..4] == t && t[..0] == [];
    NoTokens(width);
  }

  lemma NoTokens(width: nat)
    ensures WrapAll([], width) == Wrapper([], [], 0, PLAIN)
  {
  }

  lemma WordStyle(word: Line)
    requires Run(word, WordKind)
    ensures After([UNDERLINE] + word, PLAIN) == Apply(PLAIN, UNDERLINE.code)
  {
    hide Apply, Width, Read;
    Appended([UNDERLINE], word, PLAIN);
    OneItem(UNDERLINE, PLAIN);
    RunKeepsStyle(word, WordKind, Apply(PLAIN, UNDERLINE.code));
  }

  lemma FirstToken(one: Line, width: nat)
    requires Width(one) == width
    ensures WrapOne(Wrapper([], [], 0, PLAIN), one, width) == Wrapper([], one, width, After(one, PLAIN))
  {
    hide Width, After;
    assert [] + one == one;
  }

  lemma SpaceIsDropped(w: Wrapper, width: nat)
    requires 0 < w.length == width
    ensures var v := WrapOne(w, [SPACE], width);
            && |v.lines| == |w.lines| + 1 && v.current == Codes(ActiveCodes(w.style))
            && v.length == 0 && v.style == w.style
  {
    hide ActiveCodes, LineEndReset, TrimEnd;
    OneItem(SPACE, w.style);
  }

  lemma LongToken(w: Wrapper, token: Line, width: nat)
    requires width < Width(token) && !AllBlank(token) && 0 < Width(w.current)
    ensures w.lines + [w.current + Codes(LineEndReset(w.style))] <= WrapOne(w, token, width).lines
  {
    hide LineEndReset, BreakItems, PiecesOf, AllBlank;
    WidthNone();
  }

  lemma NotBlank(code: Item, line: Line)
    requires code.Escape?
    ensures !AllBlank([code] + line)
  {
    assert ([code] + line)[0] == code;
  }

  lemma UnderlineOn()
    ensures var s := Apply(PLAIN, UNDERLINE.code); Proper(s) && s.flags.underline
  {
    var u := PLAIN.(flags := NO_FLAGS.(underline := true));
    assert ActiveParams(u) == ["4"];
    assert ActiveCodes(u) == [UNDERLINE.code];
    RoundTrip(u);
    assert ApplyAll(PLAIN, []) == PLAIN && [UNDERLINE.code][..0] == [];
    hide Apply;
    assert ApplyAll(PLAIN, [UNDERLINE.code]) == Apply(PLAIN, UNDERLINE.code);
  }

  /** What is put at the end of an underlined line keeps its blanks from being trimmed, so a line can be
      wider than `width`, and by any number of columns. */
  lemma TooWideLine(width: nat, word: Line, blanks: Line, spaces: Line)
    requires Run(word, WordKind) && Run(blanks, WordKind) && AllBlank(blanks) && Run(spaces, SpaceKind)
    requires 0 < width == Width(word) && width < Width(blanks) && width < Width(spaces)
    ensures var result := WrapLine(WideInput(word, blanks, spaces), width);
            |result| >= 2 && Width(result[1]) == Width(blanks)
  {
    hide Width, Apply, ActiveCodes, LineEndReset, Codes, TrimEnd, WrapAll, TokensOf, AllBlank, Proper, Run;
    var line := WideInput(word, blanks, spaces);
    WideWidths(word, blanks, spaces);
    SplitWide(word, blanks, spaces);
    UnderlineOn();
    WrapWide(width, word, blanks, spaces);
    var s := Apply(PLAIN, UNDERLINE.code);
    WideLine(s, blanks);
    var w := WrapAll(TokensOf(line), width);
    assert Written(w)[1] == w.lines[1];
  }

  lemma WideLine(s: Style, blanks: Line)
    requires Proper(s) && s.flags.underline
    ensures var line := Codes(ActiveCodes(s)) + blanks + Codes(LineEndReset(s));
            TrimEnd(line) == line && Width(line) == Width(blanks)
  {
    hide Width, ActiveCodes, Codes, Proper, TrimEnd, Read;
    EndsInCode(Codes(ActiveCodes(s)) + blanks, LineEndReset(s));
    ClosedOff(Codes(ActiveCodes(s)) + blanks, LineEndReset(s));
    Restored(s, blanks);
  }

  lemma WideWidths(word: Line, blanks: Line, spaces: Line)
    ensures Width([UNDERLINE] + word) == Width(word) && Width([BOLD] + spaces) == Width(spaces)
    ensures Width(WideInput(word, blanks, spaces)) == Width(word) + 1 + Width(blanks) + Width(spaces)
  {
    hide Width, After, Read;
    OneItem(UNDERLINE, PLAIN);
    OneItem(SPACE, PLAIN);
    OneItem(BOLD, PLAIN);
    Appended([UNDERLINE], word, PLAIN);
    Appended([BOLD], spaces, PLAIN);
    Appended([UNDERLINE] + word, [SPACE], PLAIN);
    Appended([UNDERLINE] + word + [SPACE], blanks, PLAIN);
    Appended([UNDERLINE] + word + [SPACE] + blanks, [BOLD] + spaces, PLAIN);
    assert WideInput(word, blanks, spaces) == [UNDERLINE] + word + [SPACE] + blanks + ([BOLD] + spaces);
  }

  function Letter(text: string): Item {
    Glyph(Grapheme(text, 1, false, false))
  }

  /** For instance: three letters, a space, two tabs, four spaces. Every grapheme fits in three columns,
      and one line takes six. */
  lemma TabsAreTooWide()
    ensures var input := WideInput([Letter("a"), Letter("b"), Letter("c")], [TAB, TAB], [SPACE, SPACE, SPACE, SPACE]);
            Narrow(input, 3) && |WrapLine(input, 3)| >= 2 && Width(WrapLine(input, 3)[1]) == 6
  {
    hide WrapLine;
    var word, tabs, spaces := [Letter("a"), Letter("b"), Letter("c")], [TAB, TAB], [SPACE, SPACE, SPACE, SPACE];
    WidthOfThree(Letter("a"), Letter("b"), Letter("c"));
    WidthOfThree(SPACE, SPACE, SPACE);
    WidthPush([SPACE, SPACE, SPACE], SPACE);
    assert [SPACE, SPACE, SPACE] + [SPACE] == spaces;
    OneItem(TAB, PLAIN);
    WidthPush([TAB], TAB);
    assert [TAB] + [TAB] == tabs;
    TooWideLine(3, word, tabs, spaces);
  }

  lemma WidthOfThree(a: Item, b: Item, c: Item)
    requires a.Glyph? && b.Glyph? && c.Glyph?
    ensures Width([a, b, c]) == a.grapheme.width + b.grapheme.width + c.grapheme.width
  {
    OneItem(a, PLAIN);
    WidthPush([a], b);
    WidthPush([a, b], c);
    assert [a] + [b] == [a, b] && [a, b] + [c] == [a, b, c];
  }

  lemma {:induction false} EscapesTakeNoColumn(line: Line)
    ensures AllEscapes(line) ==> Width(line) == 0
  {
    if line != [] {
      EscapesTakeNoColumn(line[..|line| - 1]);
    }
  }

  /** Feeds the codes of a text to the tracker. */
  method UpdateTracker(text: Line, tracker: AnsiCodeTracker)
    modifies tracker
    ensures tracker.Now() == After(text, old(tracker.Now()))
  {
    hide Apply;
    var i := 0;
    while i < |text|
      invariant 0 <= i <= |text|
      invariant tracker.Now() == After(text[..i], old(tracker.Now()))
    {
      assert text[..i + 1][..i] == text[..i];
      if text[i].Escape? {
        tracker.Process(text[i].code);
      }
      i := i + 1;
    }
    assert text[..i] == text;
  }

  lemma OneEmptyLine()
    ensures ReadEach([[]]) == ReadEach([]) && Width([]) == 0
  {
    var none: seq<Line> := [];
    ReadEachPush(none, []);
    assert none + [[]] == [[]];
  }

  // Wrapping text.

  /** What has been wrapped of a text, and the style in force. */
  datatype TextWrapper = TextWrapper(result: seq<Line>, style: Style)

  function WrapNext(t: TextWrapper, line: Line, width: nat): TextWrapper {
    var prefix := if t.result != [] then Codes(ActiveCodes(t.style)) else Codes([]);
    TextWrapper(t.result + WrapLine(prefix + line, width), After(line, t.style))
  }

  function WrapLines(lines: seq<Line>, width: nat): TextWrapper {
    if lines == [] then TextWrapper([], PLAIN)
    else WrapNext(WrapLines(lines[..|lines| - 1], width), lines[|lines| - 1], width)
  }

  /** Wraps text, given as its lines; styles carry over from each line to the next. */
  function WrapText(lines: seq<Line>, width: nat): seq<Line> {
    var result := WrapLines(lines, width).result;
    if result == [] then [[]] else result
  }

  predicate AllRegular(lines: seq<Line>, width: nat) {
    forall k :: 0 <= k < |lines| ==> Narrow(lines[k], width) && OnlyPlainSpaces(lines[k])
  }

  /** The lines of the result, each read from the plain style, read as the lines of the text do one
      after the other, but for blanks left out. */
  ghost predicate TextReads(done: seq<Line>, result: seq<Line>, now: Style) {
    && Dropped(Read(Concat(done), PLAIN), ReadEach(result))
    && now == After(Concat(done), PLAIN) && Proper(now)
    && (result == [] <==> done == [])
  }

  /** A line of the text as it is wrapped: after the first line, behind the codes for the style in force. */
  function Prefixed(lines: seq<Line>, k: nat): Line
    requires k < |lines|
  {
    (if k > 0 then Codes(ActiveCodes(After(Concat(lines[..k]), PLAIN))) else []) + lines[k]
  }

  /** Wrapping none of the lines comes to the state in which a line is written too wide. */
  predicate NoneOverfull(lines: seq<Line>, width: nat) {
    forall k :: 0 <= k < |lines| ==> !Overfull(Prefixed(lines, k), width)
  }

  ghost predicate TextFits(done: seq<Line>, width: nat, result: seq<Line>) {
    && (AllFit(done, width) ==> BareWithin(result, width) && (AllWithin(result, width) <==> NoneOverfull(done, width)))
    && (AllRegular(done, width) ==> NoneOverfull(done, width))
  }

  lemma TextStart(width: nat)
    ensures TextReads([], [], PLAIN) && TextFits([], width, [])
  {
  }

  lemma TextReadsStep(done: seq<Line>, result: seq<Line>, now: Style, line: Line, more: seq<Line>)
    requires TextReads(done, result, now) && more != []
    requires var prefix := if result != [] then Codes(ActiveCodes(now)) else [];
             Dropped(Read(prefix + line, PLAIN), ReadEach(more))
    ensures TextReads(done + [line], result + more, After(line, now))
  {
    if result == [] {
      assert [] + line == line;
    } else {
      Restored(now, line);
    }
    ConcatPush(done, line);
    AfterIsProper(line, now);
    hide Dropped, Read, ReadEach, Proper, ActiveCodes, Codes;
    KeptExtend(Concat(done), ReadEach(result), line, now, ReadEach(more));
    ReadEachAppend(result, more);
  }

  lemma TextFitsStep(done: seq<Line>, width: nat, result: seq<Line>, codes: seq<Code>, line: Line, more: seq<Line>)
    requires TextFits(done, width, result)
    requires Codes(codes) + line == Prefixed(done + [line], |done|)
    requires var whole := Codes(codes) + line;
             && (Fitting(whole, width) ==>
                   BareWithin(more, width) && (AllWithin(more, width) <==> !Overfull(whole, width)))
             && (Narrow(whole, width) && OnlyPlainSpaces(whole) ==> !Overfull(whole, width))
    ensures TextFits(done + [line], width, result + more)
  {
    hide Width, Bare, Overfull, Prefixed, AllWithin;
    NonePush(done, line, width);
    WithinAppend(result, more, width);
    FitPush(done, line, width);
  }

  lemma FitPush(done: seq<Line>, line: Line, width: nat)
    ensures AllFit(done + [line], width) ==> AllFit(done, width) && Fitting(line, width)
    ensures AllRegular(done + [line], width) ==> AllRegular(done, width) && Narrow(line, width) && OnlyPlainSpaces(line)
  {
    hide Fitting, Narrow, OnlyPlainSpaces;
    assert (done + [line])[|done|] == line && forall k :: 0 <= k < |done| ==> (done + [line])[k] == done[k];
  }

  lemma NonePush(done: seq<Line>, line: Line, width: nat)
    ensures NoneOverfull(done + [line], width)
            <==> NoneOverfull(done, width) && !Overfull(Prefixed(done + [line], |done|), width)
  {
    hide Overfull, Codes, ActiveCodes, After;
    forall k | 0 <= k < |done| ensures Prefixed(done + [line], k) == Prefixed(done, k) {
      assert (done + [line])[..k] == done[..k];
    }
  }

  lemma WithinAppend(a: seq<Line>, b: seq<Line>, width: nat)
    ensures AllWithin(a + b, width) <==> AllWithin(a, width) && AllWithin(b, width)
  {
    hide Width;
    assert forall k :: 0 <= k < |a| ==> (a + b)[k] == a[k];
    assert forall k :: 0 <= k < |b| ==> (a + b)[|a| + k] == b[k];
  }

  lemma WrapLinesPush(lines: seq<Line>, line: Line, width: nat)
    ensures WrapLines(lines + [line], width) == WrapNext(WrapLines(lines, width), line, width)
  {
    hide WrapNext;
    assert (lines + [line])[..|lines|] == lines;
  }

  lemma PrefixIs(done: seq<Line>, t: TextWrapper, line: Line)
    requires TextReads(done, t.result, t.style)
    ensures Codes(if t.result != [] then ActiveCodes(t.style) else []) + line == Prefixed(done + [line], |done|)
  {
    hide Codes, ActiveCodes, Dropped, Read, ReadEach, After, Proper;
    NoCodes();
    assert (done + [line])[..|done|] == done;
  }

  lemma NextKeeps(done: seq<Line>, t: TextWrapper, line: Line, width: nat)
    requires TextReads(done, t.result, t.style) && TextFits(done, width, t.result)
    ensures var n := WrapNext(t, line, width);
            TextReads(done + [line], n.result, n.style) && TextFits(done + [line], width, n.result)
  {
    hide TextReads, TextFits, Codes, ActiveCodes, Narrow, Fitting, OnlyPlainSpaces, AllWithin, BareWithin, Dropped,
         Read, ReadEach, After, WrapLine, Width;
    NoCodes();
    var prefix := if t.result != [] then ActiveCodes(t.style) else [];
    WrapLineKeeps(Codes(prefix) + line, width);
    var more := WrapLine(Codes(prefix) + line, width);
    TextReadsStep(done, t.result, t.style, line, more);
    PrefixIs(done, t, line);
    TextFitsStep(done, width, t.result, prefix, line, more);
  }

  lemma {:induction false} WrapLinesKeep(lines: seq<Line>, width: nat)
    ensures var t := WrapLines(lines, width); TextReads(lines, t.result, t.style) && TextFits(lines, width, t.result)
  {
    hide TextReads, TextFits, WrapNext, WrapLines;
    if lines == [] {
      LinesStart(width);
    } else {
      var front, line := lines[..|lines| - 1], lines[|lines| - 1];
      WrapLinesKeep(front, width);
      WrapLinesPush(front, line, width);
      NextKeeps(front, WrapLines(front, width), line, width);
      assert lines == front + [line];
    }
  }

  lemma LinesStart(width: nat)
    ensures var t := WrapLines([], width); TextReads([], t.result, t.style) && TextFits([], width, t.result)
  {
    TextStart(width);
  }

  method WrapTextWithAnsi(inputLines: seq<Line>, width: nat) returns (result: seq<Line>)
    ensures result == WrapText(inputLines, width)
    ensures result != []
    ensures Dropped(Read(Concat(inputLines), PLAIN), ReadEach(result))
    ensures AllFit(inputLines, width) ==> BareWithin(result, width)
    ensures AllFit(inputLines, width) ==> (AllWithin(result, width) <==> NoneOverfull(inputLines, width))
    ensures AllRegular(inputLines, width) ==> NoneOverfull(inputLines, width) && AllWithin(result, width)
  {
    hide Codes, ActiveCodes, Narrow, Fitting, OnlyPlainSpaces, AllWithin, BareWithin, Dropped, Read, ReadEach, After,
         WrapLine, TextReads, TextFits, Wrapped, AllFit, AllRegular, Concat, NoneOverfull, Overfull;
    result := [];
    var tracker := new AnsiCodeTracker();
    var i := 0;
    while i < |inputLines|
      invariant 0 <= i <= |inputLines| && fresh(tracker)
      invariant WrapLines(inputLines[..i], width) == TextWrapper(result, tracker.Now())
    {
      assert inputLines[..i + 1][..i] == inputLines[..i];
      var prefix: seq<Code> := if |result| > 0 then tracker.GetActiveCodes() else [];
      var wrappedLines := WrapSingleLine(Codes(prefix) + inputLines[i], width);
      result := result + wrappedLines;
      UpdateTracker(inputLines[i], tracker);
      i := i + 1;
    }
    assert inputLines[..i] == inputLines;
    WrapLinesKeep(inputLines, width);
    TextDone(inputLines, width, result, tracker.Now());
    OneEmptyLine();
    if |result| == 0 {
      FitsEmpty(width);
      result := [[]];
    }
  }

  lemma FitsEmpty(width: nat)
    ensures AllWithin([], width) && AllWithin([[]], width) && BareWithin([[]], width)
  {
    WidthNone();
    BareIsNarrower([]);
  }

  lemma NoCodes()
    ensures Codes([]) == []
  {
  }

  lemma TextDone(done: seq<Line>, width: nat, result: seq<Line>, now: Style)
    requires TextReads(done, result, now) && TextFits(done, width, result)
    ensures Dropped(Read(Concat(done), PLAIN), ReadEach(result))
    ensures AllFit(done, width) ==> BareWithin(result, width)
    ensures AllFit(done, width) ==> (AllWithin(result, width) <==> NoneOverfull(done, width))
    ensures AllRegular(done, width) ==> NoneOverfull(done, width) && AllWithin(result, width)
  {
    hide NoneOverfull, AllWithin, BareWithin, OnlyPlainSpaces;
    forall k | 0 <= k < |done| ensures Narrow(done[k], width) ==> Fitting(done[k], width) {
      NarrowFits(done[k], width);
    }
  }

  /** In particular the graphemes that are not blank are the same, in order and with their styles. */
  lemma WrappingKeepsInk(text: Line, result: seq<Line>)
    requires Dropped(Read(text, PLAIN), ReadEach(result))
    ensures Ink(Read(text, PLAIN)) == Ink(ReadEach(result)) && |ReadEach(result)| <= |Read(text, PLAIN)|
  {
    DroppedKeepsInk(Read(text, PLAIN), ReadEach(result));
  }
}
