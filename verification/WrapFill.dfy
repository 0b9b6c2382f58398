/** How far wrapping fills its lines: what each line holds, where it ends, and why it ends there. */
module WrapFill {
  import opened Ansi
  import opened StyledText
  import opened Wrap

  function Opening(s: Style): Line {
    Codes(ActiveCodes(s))
  }

  function Closing(s: Style): Line {
    Codes(LineEndReset(s))
  }

  // Breaking a word.

  /** On the piece that starts at `a` every grapheme before `c`, but for the first item, fits. */
  predicate PartFits(word: Line, width: nat, a: nat, c: nat)
    requires a <= c <= |word|
  {
    forall p :: a < p < c && word[p].Glyph? ==> Width(word[a..p]) + word[p].grapheme.width <= width
  }

  /** A piece ends before a grapheme only if that does not fit on it. */
  predicate IsPiece(word: Line, width: nat, style: Style, a: nat, c: nat, piece: Line) {
    && a <= c < |word| && word[c].Glyph? && Width(word[a..c]) + word[c].grapheme.width > width
    && PartFits(word, width, a, c)
    && piece == Opening(After(word[..a], style)) + word[a..c] + Closing(After(word[..c], style))
  }

  function CutBefore(cuts: seq<nat>, m: nat): nat
    requires m <= |cuts|
  {
    if m == 0 then 0 else cuts[m - 1]
  }

  ghost predicate ArePieces(word: Line, width: nat, style: Style, lines: seq<Line>, cuts: seq<nat>) {
    && |cuts| == |lines|
    && forall m :: 0 <= m < |cuts| ==> IsPiece(word, width, style, CutBefore(cuts, m), cuts[m], lines[m])
  }

  /** The piece after the last cut. */
  ghost predicate IsRest(word: Line, width: nat, style: Style, a: nat, b: Breaker) {
    && a <= |word| && PartFits(word, width, a, |word|)
    && b.current == Opening(After(word[..a], style)) + word[a..]
    && b.width == Width(word[a..]) && b.style == After(word, style)
  }

  lemma PieceStays(word: Line, item: Item, width: nat, style: Style, a: nat, c: nat, piece: Line)
    requires IsPiece(word, width, style, a, c, piece)
    ensures IsPiece(word + [item], width, style, a, c, piece)
  {
    hide Opening, Closing, Width, After;
    var longer := word + [item];
    assert longer[..a] == word[..a] && longer[..c] == word[..c] && longer[a..c] == word[a..c];
    forall p | a < p < c ensures longer[a..p] == word[a..p] && longer[p] == word[p] {
    }
  }

  lemma PiecesStay(word: Line, item: Item, width: nat, style: Style, lines: seq<Line>, cuts: seq<nat>)
    requires ArePieces(word, width, style, lines, cuts)
    ensures ArePieces(word + [item], width, style, lines, cuts)
  {
    hide IsPiece;
    forall m | 0 <= m < |cuts| ensures IsPiece(word + [item], width, style, CutBefore(cuts, m), cuts[m], lines[m]) {
      PieceStays(word, item, width, style, CutBefore(cuts, m), cuts[m], lines[m]);
    }
  }

  lemma PiecesPush(word: Line, width: nat, style: Style, lines: seq<Line>, cuts: seq<nat>, c: nat, piece: Line)
    requires ArePieces(word, width, style, lines, cuts)
    requires IsPiece(word, width, style, CutBefore(cuts, |cuts|), c, piece)
    ensures ArePieces(word, width, style, lines + [piece], cuts + [c])
  {
    hide IsPiece;
    var longer := cuts + [c];
    forall m | 0 <= m < |longer|
      ensures IsPiece(word, width, style, CutBefore(longer, m), longer[m], (lines + [piece])[m])
    {
    }
  }

  /** The grapheme that does not fit ends the piece and starts the next one. */
  lemma RestEnds(word: Line, item: Item, width: nat, style: Style, a: nat, b: Breaker)
    requires IsRest(word, width, style, a, b) && item.Glyph? && b.width + item.grapheme.width > width
    ensures var longer := word + [item];
            var n := BreakItem(b, item, width);
            && n.lines == b.lines + [b.current + Closing(b.style)]
            && IsPiece(longer, width, style, a, |word|, b.current + Closing(b.style))
            && IsRest(longer, width, style, |word|, n)
  {
    hide Width, After, ActiveCodes, LineEndReset, Codes, Read;
    var longer := word + [item];
    assert longer[..a] == word[..a] && longer[..|word|] == word && longer[a..|word|] == word[a..];
    assert longer[|word|..] == [item];
    forall p | a < p < |word| ensures longer[a..p] == word[a..p] && longer[p] == word[p] {
    }
    OneItem(item, PLAIN);
    AfterGlyph(word, item, style);
  }

  lemma AfterGlyph(word: Line, item: Item, style: Style)
    ensures After(word + [item], style)
         == if item.Escape? then Apply(After(word, style), item.code) else After(word, style)
  {
    hide Apply;
    assert (word + [item])[..|word|] == word;
  }

  lemma RestGrows(word: Line, item: Item, width: nat, style: Style, a: nat, b: Breaker)
    requires IsRest(word, width, style, a, b)
    requires item.Glyph? ==> b.width + item.grapheme.width <= width
    ensures var n := BreakItem(b, item, width);
            n.lines == b.lines && IsRest(word + [item], width, style, a, n)
  {
    hide Width, After, ActiveCodes, LineEndReset, Codes, Read, Apply;
    var longer := word + [item];
    assert longer[..a] == word[..a] && longer[a..] == word[a..] + [item] && longer[a..|word|] == word[a..];
    forall p | a < p < |word| ensures longer[a..p] == word[a..p] && longer[p] == word[p] {
    }
    WidthPush(word[a..], item);
    AfterGlyph(word, item, style);
  }

  /** Where a broken word is cut: only before a grapheme that would not fit, and before each of those. */
  lemma {:induction false} WordIsCut(word: Line, width: nat, style: Style) returns (cuts: seq<nat>)
    ensures var b := BreakItems(word, width, style);
            ArePieces(word, width, style, b.lines, cuts) && IsRest(word, width, style, CutBefore(cuts, |cuts|), b)
  {
    hide ArePieces, IsRest, IsPiece, BreakItem, BreakItems;
    if word == [] {
      cuts := [];
      NothingCut(width, style);
    } else {
      var front, item := word[..|word| - 1], word[|word| - 1];
      assert word == front + [item];
      cuts := WordIsCut(front, width, style);
      BreakPush(front, item, width, style);
      var b := BreakItems(front, width, style);
      PiecesStay(front, item, width, style, b.lines, cuts);
      if item.Glyph? && b.width + item.grapheme.width > width {
        RestEnds(front, item, width, style, CutBefore(cuts, |cuts|), b);
        PiecesPush(word, width, style, b.lines, cuts, |front|, b.current + Closing(b.style));
        cuts := cuts + [|front|];
      } else {
        RestGrows(front, item, width, style, CutBefore(cuts, |cuts|), b);
      }
    }
  }

  lemma NothingCut(width: nat, style: Style)
    ensures var b := BreakItems([], width, style);
            ArePieces([], width, style, b.lines, []) && IsRest([], width, style, 0, b)
  {
    hide ActiveCodes, Codes;
    WidthNone();
  }

  // Lines over the tokens of a text.

  /** A token that is broken: wider than a line, and not a run of blanks. */
  predicate Long(token: Line, width: nat) {
    Width(token) > width && !AllBlank(token)
  }

  /** A place in the text: an item of a token. */
  datatype Place = Place(token: nat, offset: nat)

  /** The part of the text that a line holds. */
  datatype Row = Row(begin: Place, end: Place)

  predicate On(tokens: seq<Line>, p: Place) {
    p.token < |tokens| && p.offset < |tokens[p.token]|
  }

  predicate Begun(tokens: seq<Line>, p: Place) {
    On(tokens, p) || p == Place(0, 0)
  }

  /** The number of items before a place. */
  function At(tokens: seq<Line>, p: Place): nat
    requires p.token <= |tokens|
  {
    |Concat(tokens[..p.token])| + p.offset
  }

  /** Where the text of a line starts: blanks at a line break are left out, but those the text begins with. */
  function Lead(tokens: seq<Line>, p: Place): nat
    requires p.token <= |tokens|
  {
    if p != Place(0, 0) && p.offset == 0 && p.token < |tokens| && AllBlank(tokens[p.token])
    then At(tokens, p) + |tokens[p.token]| else At(tokens, p)
  }

  function Slice(text: Line, a: nat, c: nat): Line {
    if a <= c <= |text| then text[a..c] else []
  }

  function Shown(tokens: seq<Line>, r: Row): Line
    requires r.begin.token <= |tokens| && r.end.token <= |tokens|
  {
    Slice(Concat(tokens), Lead(tokens, r.begin), At(tokens, r.end))
  }

  /** Why a line of `v` columns may end before item `o` of the token: a long word begins there; or a grapheme of
      it does not fit; or another token does not fit. */
  predicate EndsBefore(token: Line, width: nat, o: nat, v: nat, nonempty: bool)
    requires o < |token|
  {
    if Long(token, width) then
      (o == 0 && nonempty) || (token[o].Glyph? && v + token[o].grapheme.width > width)
    else o == 0 && v > 0 && v + Width(token) > width
  }

  /** Why a line of `v` columns may go on with item `o` of the token. */
  predicate GoesOver(token: Line, width: nat, o: nat, v: nat)
    requires o < |token|
  {
    if Long(token, width) then o > 0 && (token[o].Glyph? ==> v + token[o].grapheme.width <= width)
    else o == 0 ==> v == 0 || v + Width(token) <= width
  }

  predicate Within(tokens: seq<Line>, r: Row, p: Place)
    requires r.begin.token <= |tokens| && r.end.token <= |tokens|
  {
    On(tokens, p) && Lead(tokens, r.begin) < At(tokens, p) < At(tokens, r.end)
  }

  ghost predicate GoesOn(tokens: seq<Line>, width: nat, r: Row)
    requires r.begin.token <= |tokens| && r.end.token <= |tokens|
  {
    forall p: Place :: Within(tokens, r, p) ==>
      GoesOver(tokens[p.token], width, p.offset, Width(Shown(tokens, Row(r.begin, p))))
  }

  /** The line for a row: the codes for the style in force, the text, and what is put at the end of a line.
      Blanks at the end are left out, except before what ends an underlined or linked line at a long word. */
  function RowText(tokens: seq<Line>, width: nat, r: Row): Line
    requires r.begin.token <= |tokens| && r.end.token <= |tokens|
  {
    var opening := Opening(After(Slice(Concat(tokens), 0, Lead(tokens, r.begin)), PLAIN));
    var shown := Shown(tokens, r);
    if r.end.token == |tokens| then opening + shown
    else
      opening + (if Long(tokens[r.end.token], width) then shown else TrimEnd(shown))
      + Closing(After(Slice(Concat(tokens), 0, At(tokens, r.end)), PLAIN))
  }

  ghost predicate IsRow(tokens: seq<Line>, width: nat, r: Row, line: Line) {
    && Begun(tokens, r.begin) && On(tokens, r.end)
    && Lead(tokens, r.begin) <= At(tokens, r.end)
    && EndsBefore(tokens[r.end.token], width, r.end.offset, Width(Shown(tokens, r)), r.begin != r.end)
    && GoesOn(tokens, width, r)
    && line == RowText(tokens, width, r)
  }

  // Places.

  lemma {:induction false} Later(tokens: seq<Line>, i: nat, j: nat)
    requires i <= j <= |tokens|
    ensures |Concat(tokens[..i])| <= |Concat(tokens[..j])|
    ensures i < j ==> |Concat(tokens[..i])| + |tokens[i]| <= |Concat(tokens[..j])|
  {
    if i < j {
      assert tokens[..j][..j - 1] == tokens[..j - 1];
      Later(tokens, i, j - 1);
    }
  }

  lemma OnIsInside(tokens: seq<Line>, p: Place)
    requires On(tokens, p)
    ensures At(tokens, p) < |Concat(tokens)|
  {
    hide Concat;
    Later(tokens, p.token, |tokens|);
    assert tokens[..|tokens|] == tokens;
  }

  lemma AtEnd(tokens: seq<Line>)
    ensures At(tokens, Place(|tokens|, 0)) == |Concat(tokens)|
  {
    assert tokens[..|tokens|] == tokens;
  }

  lemma AtStays(tokens: seq<Line>, token: Line, p: Place)
    requires p.token <= |tokens|
    ensures At(tokens + [token], p) == At(tokens, p)
  {
    hide Concat;
    assert (tokens + [token])[..p.token] == tokens[..p.token];
  }

  lemma LeadStays(tokens: seq<Line>, token: Line, p: Place)
    requires Begun(tokens, p)
    ensures Lead(tokens + [token], p) == Lead(tokens, p)
  {
    hide At, AllBlank;
    AtStays(tokens, token, p);
  }

  lemma SliceStays(text: Line, more: Line, a: nat, c: nat)
    requires c <= |text|
    ensures Slice(text + more, a, c) == Slice(text, a, c)
  {
  }

  lemma ShownStays(tokens: seq<Line>, token: Line, r: Row)
    requires Begun(tokens, r.begin) && r.end.token <= |tokens| && At(tokens, r.end) <= |Concat(tokens)|
    ensures Shown(tokens + [token], r) == Shown(tokens, r)
  {
    hide At, Lead, Slice, Concat;
    AtStays(tokens, token, r.end);
    LeadStays(tokens, token, r.begin);
    ConcatPush(tokens, token);
    SliceStays(Concat(tokens), token, Lead(tokens, r.begin), At(tokens, r.end));
  }

  /** A place in the last token lies behind all the others. */
  lemma InLastToken(tokens: seq<Line>, token: Line, p: Place)
    requires On(tokens + [token], p)
    ensures p.token < |tokens| ==> On(tokens, p) && At(tokens + [token], p) == At(tokens, p) < |Concat(tokens)|
    ensures p.token == |tokens| ==> At(tokens + [token], p) == |Concat(tokens)| + p.offset
  {
    hide Concat;
    if p.token < |tokens| {
      AtStays(tokens, token, p);
      OnIsInside(tokens, p);
    } else {
      assert (tokens + [token])[..|tokens|] == tokens;
    }
  }

  lemma WithinStays(tokens: seq<Line>, token: Line, r: Row, p: Place)
    requires Begun(tokens, r.begin) && r.end.token <= |tokens| && At(tokens, r.end) <= |Concat(tokens)|
    requires Within(tokens + [token], r, p)
    ensures Within(tokens, r, p) && Shown(tokens + [token], Row(r.begin, p)) == Shown(tokens, Row(r.begin, p))
  {
    hide At, Lead, Concat, Shown;
    InLastToken(tokens, token, p);
    AtStays(tokens, token, r.end);
    LeadStays(tokens, token, r.begin);
    ShownStays(tokens, token, Row(r.begin, p));
  }

  lemma GoesOnStays(tokens: seq<Line>, token: Line, width: nat, r: Row)
    requires Begun(tokens, r.begin) && r.end.token <= |tokens| && At(tokens, r.end) <= |Concat(tokens)|
    requires GoesOn(tokens, width, r)
    ensures GoesOn(tokens + [token], width, r)
  {
    hide At, Lead, Concat, Shown, GoesOver, Width;
    var more := tokens + [token];
    forall p: Place | Within(more, r, p)
      ensures GoesOver(more[p.token], width, p.offset, Width(Shown(more, Row(r.begin, p))))
    {
      WithinStays(tokens, token, r, p);
    }
  }

  lemma TextStays(tokens: seq<Line>, token: Line, width: nat, r: Row)
    requires Begun(tokens, r.begin) && On(tokens, r.end) && Lead(tokens, r.begin) <= At(tokens, r.end)
    ensures RowText(tokens + [token], width, r) == RowText(tokens, width, r)
  {
    hide At, Lead, Slice, Concat, Shown, Opening, Closing, TrimEnd, Long, After;
    OnIsInside(tokens, r.end);
    AtStays(tokens, token, r.end);
    LeadStays(tokens, token, r.begin);
    ConcatPush(tokens, token);
    ShownStays(tokens, token, r);
    SliceStays(Concat(tokens), token, 0, Lead(tokens, r.begin));
    SliceStays(Concat(tokens), token, 0, At(tokens, r.end));
  }

  lemma RowStays(tokens: seq<Line>, token: Line, width: nat, r: Row, line: Line)
    requires IsRow(tokens, width, r, line)
    ensures IsRow(tokens + [token], width, r, line)
  {
    hide At, Lead, Concat, Shown, RowText, GoesOn, EndsBefore, Width;
    OnIsInside(tokens, r.end);
    AtStays(tokens, token, r.end);
    LeadStays(tokens, token, r.begin);
    ShownStays(tokens, token, r);
    GoesOnStays(tokens, token, width, r);
    TextStays(tokens, token, width, r);
  }

  // One token.

  /** The line being written: it holds the text from `begin` on. */
  ghost predicate IsOpen(tokens: seq<Line>, width: nat, w: Wrapper, begin: Place) {
    && Begun(tokens, begin)
    && var text, lead := Concat(tokens), Lead(tokens, begin);
    && lead <= |text|
    && w.current == Opening(After(text[..lead], PLAIN)) + text[lead..]
    && w.length == Width(text[lead..]) && w.style == After(text, PLAIN)
    && GoesOn(tokens, width, Row(begin, Place(|tokens|, 0)))
  }

  lemma NoStyle()
    ensures Opening(PLAIN) == []
  {
    assert ActiveParams(PLAIN) == [];
  }

  lemma {:induction false} TrimBehind(codes: seq<Code>, line: Line)
    ensures TrimEnd(Codes(codes) + line) == Codes(codes) + TrimEnd(line)
  {
    if line == [] {
      assert Codes(codes) + line == Codes(codes);
    } else {
      var front := line[..|line| - 1];
      assert (Codes(codes) + line)[..|codes| + |front|] == Codes(codes) + front;
      TrimBehind(codes, front);
    }
  }

  lemma ShownToEnd(tokens: seq<Line>, begin: Place)
    requires begin.token <= |tokens| && Lead(tokens, begin) <= |Concat(tokens)|
    ensures Shown(tokens, Row(begin, Place(|tokens|, 0))) == Concat(tokens)[Lead(tokens, begin)..]
  {
    hide Concat, At, Lead;
    AtEnd(tokens);
  }

  /** The line goes on over one more token. */
  lemma GoesOnOver(tokens: seq<Line>, token: Line, width: nat, begin: Place)
    requires Begun(tokens, begin) && Lead(tokens, begin) <= |Concat(tokens)|
    requires var v := Width(Concat(tokens)[Lead(tokens, begin)..]);
             !Long(token, width) && (v == 0 || v + Width(token) <= width)
    requires GoesOn(tokens, width, Row(begin, Place(|tokens|, 0)))
    ensures GoesOn(tokens + [token], width, Row(begin, Place(|tokens| + 1, 0)))
  {
    hide At, Lead, Concat, Shown, Width, Long;
    var more := tokens + [token];
    var r := Row(begin, Place(|tokens| + 1, 0));
    AtEnd(tokens);
    LeadStays(tokens, token, begin);
    forall p: Place | Within(more, r, p)
      ensures GoesOver(more[p.token], width, p.offset, Width(Shown(more, Row(begin, p))))
    {
      InLastToken(tokens, token, p);
      if p.token < |tokens| {
        AtStays(tokens, token, p);
        assert Within(tokens, Row(begin, Place(|tokens|, 0)), p);
        ShownStays(tokens, token, Row(begin, p));
      } else if p.offset == 0 {
        ShownStays(tokens, token, Row(begin, p));
        ShownToEnd(tokens, begin);
      }
    }
  }

  lemma AddOpen(tokens: seq<Line>, token: Line, width: nat, w: Wrapper, begin: Place)
    requires IsOpen(tokens, width, w, begin) && !Long(token, width)
    requires w.length + Width(token) <= width || w.length == 0
    ensures IsOpen(tokens + [token], width,
                   Wrapper(w.lines, w.current + token, w.length + Width(token), After(token, w.style)), begin)
  {
    hide At, Lead, Concat, Width, Long, GoesOn, Opening, After, Read;
    GoesOnOver(tokens, token, width, begin);
    LeadStays(tokens, token, begin);
    ConcatPush(tokens, token);
    var text, lead := Concat(tokens), Lead(tokens, begin);
    assert (text + token)[..lead] == text[..lead] && (text + token)[lead..] == text[lead..] + token;
    Appended(text, token, PLAIN);
    Appended(text[lead..], token, PLAIN);
  }

  /** The line ends before the token. */
  lemma Closes(tokens: seq<Line>, token: Line, width: nat, w: Wrapper, begin: Place)
    requires IsOpen(tokens, width, w, begin) && token != []
    requires if Long(token, width) then w.current != [] else w.length > 0 && w.length + Width(token) > width
    ensures IsRow(tokens + [token], width, Row(begin, Place(|tokens|, 0)),
                  (if Long(token, width) then w.current else TrimEnd(w.current)) + Closing(w.style))
  {
    hide At, Lead, Concat, Width, Long, GoesOn, Opening, Closing, After, Shown, RowText, TrimEnd;
    var r := Row(begin, Place(|tokens|, 0));
    AtEnd(tokens);
    AtStays(tokens, token, r.end);
    LeadStays(tokens, token, begin);
    ShownStays(tokens, token, r);
    ShownToEnd(tokens, begin);
    GoesOnStays(tokens, token, width, r);
    ClosedText(tokens, token, width, w, begin);
    BegunStays(tokens, token, begin);
    if begin == r.end { NothingYet(tokens, width, w, begin); }
  }

  lemma BegunStays(tokens: seq<Line>, token: Line, p: Place)
    requires Begun(tokens, p)
    ensures Begun(tokens + [token], p)
  {
  }

  lemma NothingYet(tokens: seq<Line>, width: nat, w: Wrapper, begin: Place)
    requires IsOpen(tokens, width, w, begin) && begin == Place(|tokens|, 0)
    ensures tokens == [] && w.current == [] && w.length == 0
  {
    hide GoesOn, Opening;
    NoStyle();
    WidthNone();
  }

  lemma ClosedText(tokens: seq<Line>, token: Line, width: nat, w: Wrapper, begin: Place)
    requires IsOpen(tokens, width, w, begin)
    ensures RowText(tokens + [token], width, Row(begin, Place(|tokens|, 0)))
         == (if Long(token, width) then w.current else TrimEnd(w.current)) + Closing(w.style)
  {
    hide At, Lead, Concat, Width, Long, GoesOn, Closing, After, Shown, TrimEnd, ActiveCodes;
    var r := Row(begin, Place(|tokens|, 0));
    AtEnd(tokens);
    AtStays(tokens, token, r.end);
    LeadStays(tokens, token, begin);
    ShownStays(tokens, token, r);
    ShownToEnd(tokens, begin);
    ConcatPush(tokens, token);
    var text, lead := Concat(tokens), Lead(tokens, begin);
    assert (text + token)[..lead] == text[..lead] && (text + token)[0..|text|] == text;
    TrimBehind(ActiveCodes(After(text[..lead], PLAIN)), text[lead..]);
  }

  /** A line that starts with a token, or after it if it is blank. */
  lemma Opens(tokens: seq<Line>, token: Line, width: nat, w: Wrapper)
    requires tokens != [] && token != [] && w.style == After(Concat(tokens), PLAIN) && !Long(token, width)
    ensures IsOpen(tokens + [token], width, WrapBreak(w, token), Place(|tokens|, 0))
  {
    hide Concat, Width, Long, ActiveCodes, LineEndReset, After, TrimEnd, Codes, AllBlank, IsOpen;
    if AllBlank(token) {
      BlankStyle(token, w.style);
      OpensAfter(tokens, token, width, WrapBreak(w, token));
    } else {
      OpensWith(tokens, token, width, WrapBreak(w, token));
    }
  }

  lemma OpensAfter(tokens: seq<Line>, token: Line, width: nat, w: Wrapper)
    requires tokens != [] && token != [] && AllBlank(token) && !Long(token, width)
    requires w.style == After(Concat(tokens), PLAIN) && w.current == Opening(w.style) && w.length == 0
    ensures IsOpen(tokens + [token], width, w, Place(|tokens|, 0))
  {
    hide At, Lead, Concat, Width, Long, GoesOn, Opening, After, AllBlank, Read;
    LeadsBehind(tokens, token);
    var text := Concat(tokens + [token]);
    assert text[..|text|] == text && text[|text|..] == [];
    ConcatPush(tokens, token);
    Appended(Concat(tokens), token, PLAIN);
    BlankStyle(token, w.style);
    WidthNone();
    NothingWithin(tokens, token, width);
  }

  lemma LeadsBehind(tokens: seq<Line>, token: Line)
    requires tokens != [] && token != [] && AllBlank(token)
    ensures var begin := Place(|tokens|, 0);
            Begun(tokens + [token], begin) && Lead(tokens + [token], begin) == |Concat(tokens + [token])|
  {
    hide At, Concat, AllBlank;
    AtEnd(tokens);
    AtStays(tokens, token, Place(|tokens|, 0));
    ConcatPush(tokens, token);
  }

  lemma OpensWith(tokens: seq<Line>, token: Line, width: nat, w: Wrapper)
    requires tokens != [] && token != [] && !AllBlank(token) && !Long(token, width)
    requires var style := After(Concat(tokens), PLAIN);
             w.style == After(token, style) && w.current == Opening(style) + token && w.length == Width(token)
    ensures IsOpen(tokens + [token], width, w, Place(|tokens|, 0))
  {
    hide At, Concat, Width, Long, GoesOn, Opening, After, AllBlank, Read;
    var text, begin := Concat(tokens), Place(|tokens|, 0);
    AtEnd(tokens);
    AtStays(tokens, token, begin);
    ConcatPush(tokens, token);
    Appended(text, token, PLAIN);
    assert (text + token)[..|text|] == text && (text + token)[|text|..] == token;
    NothingWithin(tokens, token, width);
  }

  lemma NothingWithin(tokens: seq<Line>, token: Line, width: nat)
    requires !Long(token, width)
    ensures GoesOn(tokens + [token], width, Row(Place(|tokens|, 0), Place(|tokens| + 1, 0)))
  {
    hide Concat, Width, Long, At, Shown;
    var more := tokens + [token];
    var r := Row(Place(|tokens|, 0), Place(|tokens| + 1, 0));
    AtEnd(tokens);
    AtStays(tokens, token, r.begin);
    forall p: Place | Within(more, r, p)
      ensures GoesOver(more[p.token], width, p.offset, Width(Shown(more, Row(r.begin, p))))
    {
      InLastToken(tokens, token, p);
    }
  }

  // A long word.

  lemma InLastSlice(text: Line, token: Line, a: nat, c: nat)
    requires a <= c <= |token|
    ensures Slice(text + token, |text| + a, |text| + c) == token[a..c]
    ensures Slice(text + token, 0, |text| + a) == text + token[..a]
  {
  }

  lemma ShownInLast(tokens: seq<Line>, token: Line, r: Row, a: nat, c: nat)
    requires r.begin.token <= |tokens| && r.end.token <= |tokens| + 1 && a <= c <= |token|
    requires var more := tokens + [token];
             Lead(more, r.begin) == |Concat(tokens)| + a && At(more, r.end) == |Concat(tokens)| + c
    ensures Shown(tokens + [token], r) == token[a..c]
  {
    hide At, Lead, Concat, Slice;
    ConcatPush(tokens, token);
    InLastSlice(Concat(tokens), token, a, c);
  }

  lemma PartGoesOn(tokens: seq<Line>, token: Line, width: nat, r: Row, a: nat, c: nat)
    requires r.begin.token <= |tokens| && r.end.token <= |tokens| + 1 && Long(token, width)
    requires a <= c <= |token| && PartFits(token, width, a, c)
    requires var more := tokens + [token];
             Lead(more, r.begin) == |Concat(tokens)| + a && At(more, r.end) == |Concat(tokens)| + c
    ensures GoesOn(tokens + [token], width, r)
  {
    hide Concat, Width, Long, At, Shown, Lead;
    var more := tokens + [token];
    forall p: Place | Within(more, r, p)
      ensures GoesOver(more[p.token], width, p.offset, Width(Shown(more, Row(r.begin, p))))
    {
      InLastToken(tokens, token, p);
      ShownInLast(tokens, token, Row(r.begin, p), a, p.offset);
    }
  }

  lemma AfterInLast(tokens: seq<Line>, token: Line, a: nat)
    requires a <= |token|
    ensures After(Slice(Concat(tokens + [token]), 0, |Concat(tokens)| + a), PLAIN)
         == After(token[..a], After(Concat(tokens), PLAIN))
  {
    hide Concat, After, Slice, Read, Width;
    ConcatPush(tokens, token);
    InLastSlice(Concat(tokens), token, a, a);
    Appended(Concat(tokens), token[..a], PLAIN);
  }

  /** A piece of a long word is a line. */
  lemma PieceIsRow(tokens: seq<Line>, token: Line, width: nat, begin: Place, a: nat, c: nat, piece: Line)
    requires Long(token, width) && Begun(tokens + [token], begin) && begin.token <= |tokens|
    requires Lead(tokens + [token], begin) == |Concat(tokens)| + a
    requires IsPiece(token, width, After(Concat(tokens), PLAIN), a, c, piece)
    ensures IsRow(tokens + [token], width, Row(begin, Place(|tokens|, c)), piece)
  {
    hide Concat, Width, Long, At, Shown, Lead, After, Opening, Closing, GoesOn, TrimEnd, Slice, PartFits;
    var r := Row(begin, Place(|tokens|, c));
    InLastToken(tokens, token, r.end);
    PartGoesOn(tokens, token, width, r, a, c);
    ShownInLast(tokens, token, r, a, c);
    AfterInLast(tokens, token, a);
    AfterInLast(tokens, token, c);
  }

  /** The rest of a long word begins the next line. */
  lemma RestIsOpen(tokens: seq<Line>, token: Line, width: nat, lines: seq<Line>, begin: Place, a: nat, b: Breaker)
    requires Long(token, width) && Begun(tokens + [token], begin) && begin.token <= |tokens|
    requires Lead(tokens + [token], begin) == |Concat(tokens)| + a
    requires IsRest(token, width, After(Concat(tokens), PLAIN), a, b)
    ensures IsOpen(tokens + [token], width, Wrapper(lines, b.current, Width(b.current), b.style), begin)
  {
    hide Concat, Width, Long, At, Shown, Lead, After, ActiveCodes, Codes, GoesOn, Slice, PartFits, Read;
    var more := tokens + [token];
    var text := Concat(tokens);
    AtEnd(more);
    ConcatPush(tokens, token);
    PartGoesOn(tokens, token, width, Row(begin, Place(|tokens| + 1, 0)), a, |token|);
    assert (text + token)[..|text| + a] == text + token[..a] && (text + token)[|text| + a..] == token[a..];
    Appended(text, token[..a], PLAIN);
    Appended(text, token, PLAIN);
    var codes := ActiveCodes(After(token[..a], After(text, PLAIN)));
    CodesOnly(codes, PLAIN);
    Appended(Codes(codes), token[a..], PLAIN);
  }

  // Lists of lines.

  /** A line begins where the one before ended. */
  function EndBefore(rows: seq<Row>, k: nat): Place
    requires k <= |rows|
  {
    if k == 0 then Place(0, 0) else rows[k - 1].end
  }

  ghost predicate AreRows(tokens: seq<Line>, width: nat, lines: seq<Line>, rows: seq<Row>, begin: Place) {
    && |rows| == |lines| && begin == EndBefore(rows, |rows|)
    && forall k :: 0 <= k < |rows| ==> rows[k].begin == EndBefore(rows, k) && IsRow(tokens, width, rows[k], lines[k])
  }

  lemma RowsStay(tokens: seq<Line>, token: Line, width: nat, lines: seq<Line>, rows: seq<Row>, begin: Place)
    requires AreRows(tokens, width, lines, rows, begin)
    ensures AreRows(tokens + [token], width, lines, rows, begin)
  {
    hide IsRow;
    forall k | 0 <= k < |rows| ensures IsRow(tokens + [token], width, rows[k], lines[k]) {
      RowStays(tokens, token, width, rows[k], lines[k]);
    }
  }

  lemma RowsPush(tokens: seq<Line>, width: nat, lines: seq<Line>, rows: seq<Row>, r: Row, line: Line)
    requires AreRows(tokens, width, lines, rows, r.begin) && IsRow(tokens, width, r, line)
    ensures AreRows(tokens, width, lines + [line], rows + [r], r.end)
  {
    hide IsRow;
    var longer := rows + [r];
    forall k | 0 <= k < |longer|
      ensures longer[k].begin == EndBefore(longer, k) && IsRow(tokens, width, longer[k], (lines + [line])[k])
    {
    }
  }

  lemma {:induction false} PiecesAreRows(tokens: seq<Line>, token: Line, width: nat, lines: seq<Line>, rows: seq<Row>,
                                         begin: Place, pieces: seq<Line>, cuts: seq<nat>, m: nat)
    returns (more: seq<Row>, next: Place)
    requires Long(token, width) && Begun(tokens + [token], begin) && begin.token <= |tokens|
    requires AreRows(tokens + [token], width, lines, rows, begin)
    requires Lead(tokens + [token], begin) == |Concat(tokens)|
    requires ArePieces(token, width, After(Concat(tokens), PLAIN), pieces, cuts) && m <= |cuts|
    ensures AreRows(tokens + [token], width, lines + pieces[..m], more, next)
    ensures Begun(tokens + [token], next) && next.token <= |tokens|
    ensures Lead(tokens + [token], next) == |Concat(tokens)| + CutBefore(cuts, m)
  {
    hide Concat, Long, Lead, At, AreRows, IsRow, IsPiece, After;
    if m == 0 {
      more, next := rows, begin;
      assert lines + pieces[..0] == lines;
    } else {
      more, next := PiecesAreRows(tokens, token, width, lines, rows, begin, pieces, cuts, m - 1);
      var a, c := CutBefore(cuts, m - 1), cuts[m - 1];
      var r := Row(next, Place(|tokens|, c));
      PieceIsRow(tokens, token, width, next, a, c, pieces[m - 1]);
      RowsPush(tokens + [token], width, lines + pieces[..m - 1], more, r, pieces[m - 1]);
      assert lines + pieces[..m - 1] + [pieces[m - 1]] == lines + pieces[..m];
      CutInLong(tokens, token, width, a, c, pieces[m - 1]);
      more, next := more + [r], r.end;
    }
  }

  lemma CutInLong(tokens: seq<Line>, token: Line, width: nat, a: nat, c: nat, piece: Line)
    requires Long(token, width) && IsPiece(token, width, After(Concat(tokens), PLAIN), a, c, piece)
    ensures On(tokens + [token], Place(|tokens|, c))
    ensures Lead(tokens + [token], Place(|tokens|, c)) == |Concat(tokens)| + c
  {
    hide Concat, Width, AllBlank, PartFits, Opening, Closing, After;
    assert (tokens + [token])[..|tokens|] == tokens;
  }

  /** What the wrapper's variables are after the tokens. */
  ghost predicate Fills(tokens: seq<Line>, width: nat, w: Wrapper, rows: seq<Row>, begin: Place) {
    AreRows(tokens, width, w.lines, rows, begin) && IsOpen(tokens, width, w, begin)
  }

  lemma AddFills(tokens: seq<Line>, token: Line, width: nat, w: Wrapper, rows: seq<Row>, begin: Place)
    requires Fills(tokens, width, w, rows, begin) && !Long(token, width)
    requires w.length + Width(token) <= width || w.length == 0
    ensures Fills(tokens + [token], width,
                  Wrapper(w.lines, w.current + token, w.length + Width(token), After(token, w.style)), rows, begin)
  {
    hide AreRows, IsOpen, Long, Width, After;
    RowsStay(tokens, token, width, w.lines, rows, begin);
    AddOpen(tokens, token, width, w, begin);
  }

  lemma BreakFills(tokens: seq<Line>, token: Line, width: nat, w: Wrapper, rows: seq<Row>, begin: Place)
    requires Fills(tokens, width, w, rows, begin) && !Long(token, width) && token != []
    requires w.length + Width(token) > width && w.length > 0
    ensures Fills(tokens + [token], width, WrapBreak(w, token), rows + [Row(begin, Place(|tokens|, 0))],
                  Place(|tokens|, 0))
  {
    hide AreRows, IsOpen, Long, Width, After, IsRow, TrimEnd, ActiveCodes, Codes, LineEndReset;
    RowsStay(tokens, token, width, w.lines, rows, begin);
    Closes(tokens, token, width, w, begin);
    var r := Row(begin, Place(|tokens|, 0));
    RowsPush(tokens + [token], width, w.lines, rows, r, TrimEnd(w.current) + Closing(w.style));
    OpenStyle(tokens, width, w, begin);
    Opens(tokens, token, width, w);
  }

  lemma OpenStyle(tokens: seq<Line>, width: nat, w: Wrapper, begin: Place)
    requires IsOpen(tokens, width, w, begin)
    ensures w.style == After(Concat(tokens), PLAIN) && Begun(tokens, begin)
    ensures tokens == [] ==> w.length == 0 && w.current == []
    ensures w.current == [] ==> Lead(tokens, begin) == |Concat(tokens)|
  {
    hide GoesOn, ActiveCodes;
    NoStyle();
    WidthNone();
  }

  /** A long word ends the line, unless nothing is on it. */
  lemma LongStarts(tokens: seq<Line>, token: Line, width: nat, w: Wrapper, rows: seq<Row>, begin: Place)
    returns (more: seq<Row>, next: Place)
    requires Fills(tokens, width, w, rows, begin) && Long(token, width) && token != []
    ensures var pushed := if w.current != [] then w.lines + [w.current + Closing(w.style)] else w.lines;
            AreRows(tokens + [token], width, pushed, more, next)
    ensures Begun(tokens + [token], next) && next.token <= |tokens|
    ensures Lead(tokens + [token], next) == |Concat(tokens)|
  {
    hide AreRows, IsOpen, Width, After, IsRow, Closing, Concat, AllBlank;
    RowsStay(tokens, token, width, w.lines, rows, begin);
    OpenStyle(tokens, width, w, begin);
    if w.current != [] {
      Closes(tokens, token, width, w, begin);
      var r := Row(begin, Place(|tokens|, 0));
      RowsPush(tokens + [token], width, w.lines, rows, r, w.current + Closing(w.style));
      AtEnd(tokens);
      AtStays(tokens, token, r.end);
      more, next := rows + [r], r.end;
    } else {
      LeadStays(tokens, token, begin);
      BegunStays(tokens, token, begin);
      more, next := rows, begin;
    }
  }

  lemma RestIsLast(word: Line, width: nat, style: Style, cuts: seq<nat>, b: Breaker)
    requires word != [] && ArePieces(word, width, style, b.lines, cuts)
    requires IsRest(word, width, style, CutBefore(cuts, |cuts|), b)
    ensures var pieces := PiecesOf(b); pieces[..|pieces| - 1] == b.lines && pieces[|pieces| - 1] == b.current
  {
    hide PartFits, Opening, Closing, Width, After;
  }

  lemma LongFills(tokens: seq<Line>, token: Line, width: nat, w: Wrapper, rows: seq<Row>, begin: Place)
    returns (more: seq<Row>, next: Place)
    requires Fills(tokens, width, w, rows, begin) && Long(token, width) && token != []
    ensures Fills(tokens + [token], width, WrapLong(w, token, width), more, next)
  {
    hide AreRows, IsOpen, Long, Width, After, IsRow, LineEndReset, Codes, Concat, Begun, Lead, BreakItems, PiecesOf,
         ArePieces, IsRest;
    var start, first := LongStarts(tokens, token, width, w, rows, begin);
    OpenStyle(tokens, width, w, begin);
    var b := BreakItems(token, width, w.style);
    var cuts := WordIsCut(token, width, w.style);
    var pushed := if w.current != [] then w.lines + [w.current + Closing(w.style)] else w.lines;
    PiecesLength(token, width, w.style, b.lines, cuts);
    more, next := PiecesAreRows(tokens, token, width, pushed, start, first, b.lines, cuts, |cuts|);
    assert b.lines[..|cuts|] == b.lines;
    RestIsLast(token, width, w.style, cuts, b);
    RestIsOpen(tokens, token, width, pushed + b.lines, next, CutBefore(cuts, |cuts|), b);
  }

  lemma PiecesLength(word: Line, width: nat, style: Style, lines: seq<Line>, cuts: seq<nat>)
    requires ArePieces(word, width, style, lines, cuts)
    ensures |cuts| == |lines|
  {
  }

  predicate NoneEmpty(tokens: seq<Line>) {
    forall k :: 0 <= k < |tokens| ==> tokens[k] != []
  }

  /** The lines are filled after any number of tokens. */
  lemma {:induction false} WrapFills(tokens: seq<Line>, width: nat, k: nat) returns (rows: seq<Row>, begin: Place)
    requires NoneEmpty(tokens) && k <= |tokens|
    ensures Fills(tokens[..k], width, WrapAll(tokens[..k], width), rows, begin)
  {
    hide Fills, WrapAll, WrapLong, WrapBreak, Width, After, AllBlank;
    if k == 0 {
      rows, begin := [], Place(0, 0);
      assert tokens[..k] == [];
      StartFills(width);
    } else {
      rows, begin := WrapFills(tokens, width, k - 1);
      WrapPush(tokens, k - 1, width);
      var front, token, w := tokens[..k - 1], tokens[k - 1], WrapAll(tokens[..k - 1], width);
      assert tokens[..k] == front + [token];
      if Long(token, width) {
        rows, begin := LongFills(front, token, width, w, rows, begin);
      } else if w.length + Width(token) > width && w.length > 0 {
        BreakFills(front, token, width, w, rows, begin);
        rows, begin := rows + [Row(begin, Place(|front|, 0))], Place(|front|, 0);
      } else {
        AddFills(front, token, width, w, rows, begin);
      }
    }
  }

  lemma StartFills(width: nat)
    ensures Fills([], width, WrapAll([], width), [], Place(0, 0))
  {
    hide ActiveCodes;
    NoStyle();
    WidthNone();
  }

  // Lines and texts.

  /** The line that reaches the end of the text. */
  ghost predicate IsLastRow(tokens: seq<Line>, width: nat, r: Row) {
    && Begun(tokens, r.begin) && r.end == Place(|tokens|, 0)
    && Lead(tokens, r.begin) <= |Concat(tokens)| && GoesOn(tokens, width, r)
  }

  ghost predicate IsWritten(tokens: seq<Line>, width: nat, r: Row, line: Line) {
    && r.begin.token <= |tokens| && r.end.token <= |tokens| && line == TrimEnd(RowText(tokens, width, r))
    && if r.end.token < |tokens| then IsRow(tokens, width, r, RowText(tokens, width, r))
       else IsLastRow(tokens, width, r)
  }

  /** Nothing is left after the lines; or blanks are, and no code has to follow them. */
  predicate ReachesEnd(tokens: seq<Line>, end: Place) {
    || end == Place(|tokens|, 0)
    || (tokens != [] && end == Place(|tokens| - 1, 0) && AllBlank(tokens[|tokens| - 1])
        && Opening(After(Concat(tokens), PLAIN)) == [])
  }

  ghost predicate FilledBy(tokens: seq<Line>, width: nat, result: seq<Line>, rows: seq<Row>) {
    && |rows| == |result| > 0 && ReachesEnd(tokens, EndBefore(rows, |rows|))
    && forall k :: 0 <= k < |rows| ==>
         rows[k].begin == EndBefore(rows, k) && IsWritten(tokens, width, rows[k], result[k])
  }

  /** The result holds the text from its beginning to its end, line after line. A line ends only before a long
      word, or before a token or a grapheme of a long word that would not fit on it; and it goes on over those
      that fit. */
  ghost predicate Filled(line: Line, width: nat, result: seq<Line>) {
    if Width(line) <= width then result == [line]
    else exists rows: seq<Row> :: FilledBy(TokensOf(line), width, result, rows)
  }

  ghost predicate AreWritten(tokens: seq<Line>, width: nat, lines: seq<Line>, rows: seq<Row>) {
    && |rows| == |lines|
    && forall k :: 0 <= k < |rows| ==>
         rows[k].begin == EndBefore(rows, k) && IsWritten(tokens, width, rows[k], TrimEnd(lines[k]))
  }

  lemma EachIsWritten(tokens: seq<Line>, width: nat, lines: seq<Line>, rows: seq<Row>, begin: Place)
    requires AreRows(tokens, width, lines, rows, begin)
    ensures AreWritten(tokens, width, lines, rows) && begin == EndBefore(rows, |rows|)
  {
    hide RowText, TrimEnd, GoesOn, EndsBefore, At, Lead;
  }

  lemma WrittenPush(tokens: seq<Line>, width: nat, lines: seq<Line>, rows: seq<Row>, line: Line, r: Row)
    requires AreWritten(tokens, width, lines, rows)
    requires r.begin == EndBefore(rows, |rows|) && IsWritten(tokens, width, r, TrimEnd(line))
    ensures AreWritten(tokens, width, lines + [line], rows + [r])
  {
    hide IsWritten, TrimEnd;
    var longer := rows + [r];
    forall k | 0 <= k < |longer|
      ensures longer[k].begin == EndBefore(longer, k)
      ensures IsWritten(tokens, width, longer[k], TrimEnd((lines + [line])[k]))
    {
    }
  }

  lemma WrittenTrimmed(tokens: seq<Line>, width: nat, lines: seq<Line>, rows: seq<Row>)
    requires AreWritten(tokens, width, lines, rows) && rows != [] && ReachesEnd(tokens, EndBefore(rows, |rows|))
    ensures FilledBy(tokens, width, TrimmedLines(lines), rows)
  {
    hide IsWritten, TrimEnd, ReachesEnd;
  }

  /** The line being written is the last one; unless it is empty, when only blanks were left out. */
  lemma LastIsWritten(tokens: seq<Line>, width: nat, w: Wrapper, begin: Place)
    requires IsOpen(tokens, width, w, begin)
    ensures IsWritten(tokens, width, Row(begin, Place(|tokens|, 0)), TrimEnd(w.current))
  {
    hide TrimEnd, GoesOn, At, Lead, Opening, Closing, Concat, After, Width, Shown;
    ShownToEnd(tokens, begin);
  }

  lemma NoneIsLeft(tokens: seq<Line>, width: nat, w: Wrapper, begin: Place)
    requires IsOpen(tokens, width, w, begin) && NoneEmpty(tokens) && w.current == [] && tokens != []
    ensures ReachesEnd(tokens, begin) && begin != Place(0, 0)
  {
    hide GoesOn, Concat, ActiveCodes, After, Width;
    var text, lead := Concat(tokens), Lead(tokens, begin);
    assert |text[lead..]| == 0;
    assert text[..lead] == text;
    Later(tokens, begin.token, |tokens|);
    assert tokens[..|tokens|] == tokens;
    Later(tokens, 0, |tokens|);
    if begin.token + 1 < |tokens| {
      Later(tokens, begin.token, begin.token + 1);
      Later(tokens, begin.token + 1, |tokens|);
    }
  }

  lemma WrittenIsFilled(tokens: seq<Line>, width: nat, w: Wrapper, rows: seq<Row>, begin: Place)
    returns (all: seq<Row>)
    requires Fills(tokens, width, w, rows, begin) && NoneEmpty(tokens) && tokens != []
    ensures Written(w) != [] && FilledBy(tokens, width, TrimmedLines(Written(w)), all)
  {
    hide AreRows, AreWritten, FilledBy, IsWritten, IsOpen, TrimmedLines, TrimEnd, ReachesEnd, NoneEmpty;
    EachIsWritten(tokens, width, w.lines, rows, begin);
    SameLength(tokens, width, w.lines, rows);
    if w.current == [] {
      NoneIsLeft(tokens, width, w, begin);
      all := rows;
    } else {
      LastIsWritten(tokens, width, w, begin);
      var r := Row(begin, Place(|tokens|, 0));
      WrittenPush(tokens, width, w.lines, rows, w.current, r);
      all := rows + [r];
      AtTheEnd(tokens);
    }
    WrittenTrimmed(tokens, width, Written(w), all);
  }

  lemma SameLength(tokens: seq<Line>, width: nat, lines: seq<Line>, rows: seq<Row>)
    requires AreWritten(tokens, width, lines, rows)
    ensures |lines| == |rows|
  {
  }

  lemma AtTheEnd(tokens: seq<Line>)
    ensures ReachesEnd(tokens, Place(|tokens|, 0))
  {
  }

  lemma TokensAreNotEmpty(tokens: seq<Line>, kinds: seq<Kind>)
    requires Tokenized(tokens, kinds)
    ensures NoneEmpty(tokens)
  {
  }

  /** Every line that is wrapped is filled. */
  lemma LineIsFilled(line: Line, width: nat)
    ensures Filled(line, width, WrapLine(line, width))
  {
    hide TokensOf, WrapAll, Fills, FilledBy, Width, Written, TrimmedLines, Tokenized, Concat, NoneEmpty, AllEscapes;
    if Width(line) > width {
      EscapesTakeNoColumn(line);
      var tokens := TokensOf(line);
      var kinds := TokensOfText(line);
      TokensAreNotEmpty(tokens, kinds);
      assert tokens[..|tokens|] == tokens;
      WidthNone();
      NoLines();
      var rows, begin := WrapFills(tokens, width, |tokens|);
      var all := WrittenIsFilled(tokens, width, WrapAll(tokens, width), rows, begin);
    }
  }

  /** The lines of a text, each wrapped and filled for itself, one after the other. */
  ghost predicate TextFilled(lines: seq<Line>, width: nat, result: seq<Line>) {
    if lines == [] then result == []
    else
      var n := |lines| - 1;
      exists k :: 0 <= k <= |result|
        && TextFilled(lines[..n], width, result[..k]) && Filled(Prefixed(lines, n), width, result[k..])
  }

  lemma {:induction false} LinesAreFilled(lines: seq<Line>, width: nat)
    ensures TextFilled(lines, width, WrapLines(lines, width).result)
  {
    hide WrapNext, Filled, Prefixed, WrapLines, TextReads, TextFits;
    if lines == [] {
      NoLinesWrapped(width);
    } else {
      var n := |lines| - 1;
      var front := lines[..n];
      LinesAreFilled(front, width);
      WrapLinesPush(front, lines[n], width);
      assert lines == front + [lines[n]];
      var k := LastIsFilled(front, lines[n], width);
    }
  }

  lemma NoLinesWrapped(width: nat)
    ensures WrapLines([], width).result == []
  {
  }

  lemma LastIsFilled(front: seq<Line>, line: Line, width: nat) returns (k: nat)
    ensures var t := WrapLines(front, width);
            var result := WrapNext(t, line, width).result;
            k <= |result| && result[..k] == t.result && Filled(Prefixed(front + [line], |front|), width, result[k..])
  {
    hide WrapLines, Filled, Prefixed, TextReads, TextFits, WrapLine, Codes, ActiveCodes, After;
    var t := WrapLines(front, width);
    WrapLinesKeep(front, width);
    PrefixIs(front, t, line);
    LineIsFilled(Prefixed(front + [line], |front|), width);
    NoCodes();
    k := |t.result|;
  }

  /** Every text that is wrapped. */
  lemma TextIsFilled(lines: seq<Line>, width: nat)
    ensures TextFilled(lines, width, WrapText(lines, width)) || (lines == [] && WrapText(lines, width) == [[]])
  {
    hide TextFilled, WrapLines, TextReads, TextFits;
    LinesAreFilled(lines, width);
    WrapLinesKeep(lines, width);
    ReadsNone(lines, WrapLines(lines, width));
  }

  lemma ReadsNone(done: seq<Line>, t: TextWrapper)
    requires TextReads(done, t.result, t.style)
    ensures t.result == [] <==> done == []
  {
  }
}
