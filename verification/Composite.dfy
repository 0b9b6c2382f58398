/** Putting an overlay on a line: what is left of the line keeps its styles, and the columns add up. */
module Composite {
  import opened Ansi
  import opened Slices
  import opened StyledText
  import opened Text

  const SEGMENT_RESET: seq<Code> := [Sgr("0"), Osc8(";", Bel)]

  /** The part of a line before a column; `pending` are codes not yet needed. */
  ghost predicate BeforePart(done: Line, end: int, before: Line, pending: Line) {
    && Read(before, PLAIN) == Within(done, 0, end)
    && Width(before) <= Width(done) && Width(before) <= end
    && (Width(done) < end ==> After(before + pending, PLAIN) == After(done, PLAIN))
    && Read(before + pending, PLAIN) == Read(before, PLAIN) && Width(before + pending) == Width(before)
  }

  lemma BeforeEscape(done: Line, end: int, before: Line, pending: Line, item: Item)
    requires BeforePart(done, end, before, pending) && item.Escape? && Width(done) < end
    ensures BeforePart(done + [item], end, before, pending + [item])
  {
    hide Within, Read, After, Apply, Width;
    var whole := before + pending;
    assert before + (pending + [item]) == whole + [item];
    EscapePush(done, item, 0, end);
    EscapePush(whole, item, 0, end);
  }

  lemma BeforeIgnores(done: Line, end: int, before: Line, pending: Line, item: Item)
    requires BeforePart(done, end, before, pending) && item.Escape? && Width(done) >= end
    ensures BeforePart(done + [item], end, before, pending)
  {
    EscapePush(done, item, 0, end);
    hide Within, Read, After, Apply, Width;
  }

  lemma BeforeGlyph(done: Line, end: int, before: Line, pending: Line, item: Item)
    requires BeforePart(done, end, before, pending) && item.Glyph?
    ensures var fits := Width(done) < end && Width(done) + item.grapheme.width <= end;
            && (fits ==> BeforePart(done + [item], end, before + pending + [item], []))
            && (!fits ==> BeforePart(done + [item], end, before, pending))
  {
    GlyphPush(done, item, 0, end);
    GlyphPush(before + pending, item, 0, end);
    assert (before + pending + [item]) + [] == before + pending + [item];
    hide Within, Read, After, Apply, Width;
  }

  /** The part of a line between two columns; it starts with the codes for the style in force there. */
  ghost predicate AfterPart(done: Line, lo: int, hi: int, after: Line, started: bool) {
    && Read(after, PLAIN) == Within(done, lo, hi)
    && Width(after) <= Max(0, Width(done) - lo) && Width(after) <= Max(0, hi - lo)
    && (if started then lo < hi && Width(done) >= lo && After(after, PLAIN) == After(done, PLAIN) else after == [])
  }

  lemma AfterEscape(done: Line, lo: int, hi: int, after: Line, started: bool, item: Item)
    requires AfterPart(done, lo, hi, after, started) && item.Escape?
    ensures AfterPart(done + [item], lo, hi, if started then after + [item] else after, started)
  {
    EscapePush(done, item, lo, hi);
    EscapePush(after, item, lo, hi);
    hide Within, Read, After, Apply, Width;
  }

  lemma AfterGlyph(done: Line, lo: int, hi: int, after: Line, started: bool, item: Item)
    requires AfterPart(done, lo, hi, after, started) && item.Glyph? && Proper(After(done, PLAIN))
    requires lo <= Width(done) < hi && Width(done) + item.grapheme.width <= hi
    ensures var base := if started then after else Codes(ActiveCodes(After(done, PLAIN)));
            AfterPart(done + [item], lo, hi, base + [item], true)
  {
    hide Within, Read, After, Apply, Width, ActiveCodes, Proper, Codes;
    var base := if started then after else Codes(ActiveCodes(After(done, PLAIN)));
    GlyphPush(done, item, lo, hi);
    GlyphPush(base, item, lo, hi);
    CodesForStyle(After(done, PLAIN));
  }

  lemma CodesForStyle(s: Style)
    requires Proper(s)
    ensures var codes := Codes(ActiveCodes(s));
            Read(codes, PLAIN) == [] && Width(codes) == 0 && After(codes, PLAIN) == s
    ensures Read([], PLAIN) == [] && Width([]) == 0
  {
    Restored(s, []);
    assert Codes(ActiveCodes(s)) + [] == Codes(ActiveCodes(s));
  }

  lemma AfterSkips(done: Line, lo: int, hi: int, after: Line, started: bool, item: Item)
    requires AfterPart(done, lo, hi, after, started) && item.Glyph?
    requires !(lo <= Width(done) < hi && Width(done) + item.grapheme.width <= hi)
    ensures AfterPart(done + [item], lo, hi, after, started)
  {
    GlyphPush(done, item, lo, hi);
    hide Within, Read, After, Apply, Width;
  }

  /** Both parts of what has been read so far, the column and the style there. */
  ghost predicate Parts(done: Line, end: nat, lo: nat, hi: int, before: Line, pending: Line, after: Line, started: bool,
                        col: nat, now: Style) {
    && BeforePart(done, end, before, pending)
    && AfterPart(done, lo, hi, after, started)
    && col == Width(done) && now == After(done, PLAIN) && Proper(now)
  }

  lemma NoParts(end: nat, lo: nat, hi: int)
    ensures Parts([], end, lo, hi, [], [], [], false, 0, PLAIN)
  {
    var none: Line := [];
    assert none + none == none;
  }

  /** When the pass ends, the parts are those of the whole line. */
  lemma PartsDone(line: Line, i: nat, end: nat, lo: nat, hi: int, before: Line, pending: Line, after: Line,
                  started: bool, col: nat, now: Style)
    requires i <= |line| && Parts(line[..i], end, lo, hi, before, pending, after, started, col, now)
    requires i < |line| ==> col >= end && (col >= hi || hi <= lo)
    ensures Read(before, PLAIN) == Within(line, 0, end) && Width(before) <= end
    ensures Read(after, PLAIN) == Within(line, lo, hi) && Width(after) <= Max(0, hi - lo)
  {
    if i == |line| {
      assert line[..i] == line;
    } else {
      WithinStops(line, i, 0, end);
      WithinStops(line, i, lo, hi);
    }
  }

  method ExtractEscape(ghost done: Line, item: Item, end: nat, lo: nat, hi: int, ghost before: Line, pending: Line,
                       after: Line, started: bool, col: nat, ghost now: Style)
    returns (newPending: Line, newAfter: Line)
    requires Parts(done, end, lo, hi, before, pending, after, started, col, now) && item.Escape?
    requires end <= lo && (started ==> lo <= col < hi)
    ensures Parts(done + [item], end, lo, hi, before, newPending, newAfter, started, col, Apply(now, item.code))
  {
    if col < end {
      BeforeEscape(done, end, before, pending, item);
    } else {
      BeforeIgnores(done, end, before, pending, item);
    }
    AfterEscape(done, lo, hi, after, started, item);
    EscapePush(done, item, lo, hi);
    ApplyKeepsProper(After(done, PLAIN), item.code);
    hide BeforePart, AfterPart, Within, Read, After, Apply, Width, Proper;
    newPending, newAfter := pending, after;
    if col < end {
      newPending := newPending + [item];
    } else if lo <= col < hi && started {
      newAfter := newAfter + [item];
    }
  }

  method ExtractGlyph(ghost done: Line, item: Item, end: nat, lo: nat, hi: int, before: Line, pending: Line,
                      after: Line, started: bool, col: nat, now: Style)
    returns (newBefore: Line, newPending: Line, newAfter: Line, newStarted: bool)
    requires Parts(done, end, lo, hi, before, pending, after, started, col, now) && item.Glyph?
    requires end <= lo
    ensures Parts(done + [item], end, lo, hi, newBefore, newPending, newAfter, newStarted, col + item.grapheme.width,
            now)
    ensures newStarted ==> started || lo <= col < hi
    ensures newStarted ==> lo < hi && lo <= col + item.grapheme.width
  {
    BeforeGlyph(done, end, before, pending, item);
    GlyphPush(done, item, lo, hi);
    var w := item.grapheme.width;
    newBefore, newPending, newAfter, newStarted := before, pending, after, started;
    if lo <= col < hi && col + w <= hi {
      AfterGlyph(done, lo, hi, after, started, item);
    } else {
      AfterSkips(done, lo, hi, after, started, item);
    }
    assert started ==> lo < hi && lo <= col;
    hide BeforePart, AfterPart, Within, Read, After, Apply, Width, Proper, ActiveCodes, Codes;
    if col < end && col + w <= end {
      newBefore, newPending := before + pending + [item], [];
    } else if lo <= col < hi {
      if col + w <= hi {
        newAfter := (if started then after else Codes(ActiveCodes(now))) + [item];
        newStarted := true;
      }
    }
  }

  /** One pass over the line: the part before column `beforeEnd` and the part in the `afterLen` columns
      from `afterStart`, each as if it were read on its own. */
  method ExtractSegments(line: Line, beforeEnd: nat, afterStart: nat, afterLen: int)
    returns (before: Line, beforeWidth: nat, after: Line, afterWidth: nat)
    requires beforeEnd <= afterStart
    ensures Read(before, PLAIN) == Within(line, 0, beforeEnd) && beforeWidth == Width(before) <= beforeEnd
    ensures Read(after, PLAIN) == Within(line, afterStart, afterStart + afterLen)
    ensures afterWidth == Width(after) <= Max(0, afterLen)
  {
    hide Parts, BeforePart, AfterPart, Within, Read, After, Apply, Width, Proper;
    var afterEnd := afterStart + afterLen;
    var pendingAnsiBefore: Line := [];
    var afterStarted, currentCol: nat, i := false, 0, 0;
    var tracker := new AnsiCodeTracker();
    before, after := [], [];
    assert line[..0] == [];
    NoParts(beforeEnd, afterStart, afterEnd);
    while i < |line|
      invariant 0 <= i <= |line| && fresh(tracker)
      invariant Parts(line[..i], beforeEnd, afterStart, afterEnd, before, pendingAnsiBefore, after, afterStarted,
                      currentCol, tracker.Now())
      invariant afterStarted ==> afterStart <= currentCol < afterEnd
    {
      assert line[..i + 1] == line[..i] + [line[i]];
      if line[i].Escape? {
        pendingAnsiBefore, after := ExtractEscape(line[..i], line[i], beforeEnd, afterStart, afterEnd, before,
                                                  pendingAnsiBefore, after, afterStarted, currentCol, tracker.Now());
        tracker.Process(line[i].code);
        i := i + 1;
      } else {
        before, pendingAnsiBefore, after, afterStarted :=
          ExtractGlyph(line[..i], line[i], beforeEnd, afterStart, afterEnd, before, pendingAnsiBefore, after,
                       afterStarted, currentCol, tracker.Now());
        currentCol := currentCol + line[i].grapheme.width;
        i := i + 1;
        if if afterLen <= 0 then currentCol >= beforeEnd else currentCol >= afterEnd {
          break;
        }
      }
    }
    PartsDone(line, i, beforeEnd, afterStart, afterEnd, before, pendingAnsiBefore, after, afterStarted, currentCol,
              tracker.Now());
    beforeWidth, afterWidth := Width(before), Width(after);
  }

  function Spaces(n: nat): (line: Line)
    ensures |line| == n
  {
    seq(n, _ => SPACE)
  }

  function SpaceCells(n: nat, s: Style): seq<Styled> {
    seq(n, _ => Styled(SPACE.grapheme, s))
  }

  lemma {:induction false} SpacesRead(n: nat, s: Style)
    ensures Read(Spaces(n), s) == SpaceCells(n, s) && After(Spaces(n), s) == s && Width(Spaces(n)) == n
  {
    if n > 0 {
      SpacesRead(n - 1, s);
      assert Spaces(n)[..n - 1] == Spaces(n - 1);
      assert SpaceCells(n, s) == SpaceCells(n - 1, s) + [Styled(SPACE.grapheme, s)];
    }
  }

  /** The reset between segments ends attributes, colours and hyperlink. */
  lemma SegmentResetIsPlain(s: Style)
    ensures var r := Codes(SEGMENT_RESET); Read(r, s) == [] && Width(r) == 0 && After(r, s) == PLAIN
  {
    var r := Codes(SEGMENT_RESET);
    CodesOnly(SEGMENT_RESET, s);
    assert r == [Escape(Sgr("0"))] + [Escape(Osc8(";", Bel))];
    assert r[..1] == [Escape(Sgr("0"))] && r[..1][..0] == [];
    assert After(r[..1], s) == Reset(s);
    assert MatchesAt(";", ";", 0);
    assert ParseOsc8(";", Bel) == Some(None);
  }

  /** A segment, padded and reset: what follows is read from the plain style. */
  lemma Segment(text: Line, pad: nat, rest: Line)
    ensures var whole := text + Spaces(pad) + Codes(SEGMENT_RESET) + rest;
            && Width(whole) == Width(text) + pad + Width(rest)
            && Read(whole, PLAIN) == Read(text, PLAIN) + SpaceCells(pad, After(text, PLAIN)) + Read(rest, PLAIN)
  {
    hide Read, After, Width, Spaces, SpaceCells, Codes;
    var s := After(text, PLAIN);
    SpacesRead(pad, s);
    SegmentResetIsPlain(s);
    Appended(text, Spaces(pad), PLAIN);
    Appended(text + Spaces(pad), Codes(SEGMENT_RESET), PLAIN);
    Appended(text + Spaces(pad) + Codes(SEGMENT_RESET), rest, PLAIN);
    assert Read(text, PLAIN) + SpaceCells(pad, s) + [] == Read(text, PLAIN) + SpaceCells(pad, s);
  }

  /** The composed line. */
  function Compose(before: Line, beforePad: nat, overlay: Line, overlayPad: nat, after: Line, afterPad: nat): Line {
    before + Spaces(beforePad) + Codes(SEGMENT_RESET) +
    (overlay + Spaces(overlayPad) + Codes(SEGMENT_RESET) + (after + Spaces(afterPad)))
  }

  lemma ComposeReads(before: Line, beforePad: nat, overlay: Line, overlayPad: nat, after: Line, afterPad: nat)
    ensures var line := Compose(before, beforePad, overlay, overlayPad, after, afterPad);
            && Width(line) == Width(before) + beforePad + Width(overlay) + overlayPad + Width(after) + afterPad
            && Read(line, PLAIN) ==
               Read(before, PLAIN) + SpaceCells(beforePad, After(before, PLAIN)) +
               (Read(overlay, PLAIN) + SpaceCells(overlayPad, After(overlay, PLAIN)) +
                (Read(after, PLAIN) + SpaceCells(afterPad, After(after, PLAIN))))
  {
    hide Read, After, Width, Spaces, SpaceCells, Codes;
    var last := after + Spaces(afterPad);
    Appended(after, Spaces(afterPad), PLAIN);
    SpacesRead(afterPad, After(after, PLAIN));
    Segment(overlay, overlayPad, last);
    Segment(before, beforePad, overlay + Spaces(overlayPad) + Codes(SEGMENT_RESET) + last);
  }

  function Columns(cells: seq<Styled>): nat {
    if cells == [] then 0 else Columns(cells[..|cells| - 1]) + cells[|cells| - 1].grapheme.width
  }

  lemma {:induction false} ReadColumns(line: Line, s: Style)
    ensures Columns(Read(line, s)) == Width(line)
  {
    if line != [] {
      var front := line[..|line| - 1];
      ReadColumns(front, s);
      if line[|line| - 1].Glyph? {
        assert Read(line, s)[..|Read(line, s)| - 1] == Read(front, s);
      }
    }
  }

  ghost predicate PaddedCells(cells: seq<Styled>, a: seq<Styled>, n1: nat, s1: Style, b: seq<Styled>, n2: nat,
                              s2: Style, c: seq<Styled>, n3: nat, s3: Style) {
    cells == a + SpaceCells(n1, s1) + (b + SpaceCells(n2, s2) + (c + SpaceCells(n3, s3)))
  }

  /** Segments of a line, each of them padded with spaces to its own number of columns. */
  ghost predicate Composed(cells: seq<Styled>, a: seq<Styled>, aWidth: int, b: seq<Styled>, bWidth: int,
                           c: seq<Styled>, cWidth: int) {
    exists n1: nat, s1: Style, n2: nat, s2: Style, n3: nat, s3: Style ::
      && PaddedCells(cells, a, n1, s1, b, n2, s2, c, n3, s3)
      && Columns(a) + n1 == aWidth && Columns(b) + n2 == bWidth && Columns(c) + n3 == cWidth
  }

  lemma IsComposed(before: Line, n1: nat, text: Line, n2: nat, after: Line, n3: nat)
    ensures var line := Compose(before, n1, text, n2, after, n3);
            && Width(line) == Width(before) + n1 + Width(text) + n2 + Width(after) + n3
            && Composed(Read(line, PLAIN), Read(before, PLAIN), Width(before) + n1,
                        Read(text, PLAIN), Width(text) + n2, Read(after, PLAIN), Width(after) + n3)
  {
    hide Read, After, Width, SpaceCells, Compose, Columns;
    ComposeReads(before, n1, text, n2, after, n3);
    ReadColumns(before, PLAIN);
    ReadColumns(text, PLAIN);
    ReadColumns(after, PLAIN);
    var line := Compose(before, n1, text, n2, after, n3);
    assert PaddedCells(Read(line, PLAIN), Read(before, PLAIN), n1, After(before, PLAIN), Read(text, PLAIN), n2,
                       After(text, PLAIN), Read(after, PLAIN), n3, After(after, PLAIN));
    hide PaddedCells;
  }

  // Columns.

  /** The columns at which the graphemes of `Within` start. */
  function StartColumns(line: Line, lo: int, hi: int): seq<nat> {
    if line == [] then []
    else
      var last, front := line[|line| - 1], line[..|line| - 1];
      StartColumns(front, lo, hi) +
      if last.Glyph? && lo <= Width(front) < hi && Width(front) + last.grapheme.width <= hi then [Width(front)] else []
  }

  /** A grapheme begins before the column and ends after it. */
  predicate Straddles(line: Line, column: int) {
    if line == [] then false
    else
      var last, front := line[|line| - 1], line[..|line| - 1];
      Straddles(front, column) || (last.Glyph? && Width(front) < column < Width(front) + last.grapheme.width)
  }

  predicate InRange(line: Line, k: nat, lo: int, hi: int) {
    k < |line| && line[k].Glyph? && lo <= Width(line[..k]) < hi && Width(line[..k]) + line[k].grapheme.width <= hi
  }

  lemma RangeStays(line: Line, item: Item, k: nat, lo: int, hi: int)
    requires k <= |line|
    ensures k < |line| ==> (InRange(line + [item], k, lo, hi) <==> InRange(line, k, lo, hi))
    ensures (line + [item])[..k] == line[..k]
  {
    hide Width;
    assert (line + [item])[..k] == line[..k];
  }

  /** What a range holds, item by item: exactly the graphemes that begin and end in it, in order, each with the
      style in force at its place and the column where it begins. */
  lemma {:induction false} RangeIs(line: Line, lo: int, hi: int) returns (places: seq<nat>)
    ensures |places| == |Within(line, lo, hi)| == |StartColumns(line, lo, hi)|
    ensures forall m :: 0 <= m < |places| ==>
              && InRange(line, places[m], lo, hi)
              && Within(line, lo, hi)[m] == Styled(line[places[m]].grapheme, After(line[..places[m]], PLAIN))
              && StartColumns(line, lo, hi)[m] == Width(line[..places[m]])
    ensures forall m, n :: 0 <= m < n < |places| ==> places[m] < places[n]
    ensures forall k: nat :: InRange(line, k, lo, hi) ==> k in places
  {
    hide Within, StartColumns, After, Width;
    if line == [] {
      places := [];
      NoRange(lo, hi);
    } else {
      var front, item := line[..|line| - 1], line[|line| - 1];
      assert line == front + [item];
      var before := RangeIs(front, lo, hi);
      WithinPush(front, item, lo, hi);
      StartsPush(front, item, lo, hi);
      places := if InRange(line, |front|, lo, hi) then before + [|front|] else before;
      assert line[..|front|] == front;
      forall m | 0 <= m < |before|
        ensures InRange(line, before[m], lo, hi) && line[..before[m]] == front[..before[m]]
      {
        RangeStays(front, item, before[m], lo, hi);
      }
      forall k: nat | InRange(line, k, lo, hi) ensures k in places {
        if k < |front| {
          RangeStays(front, item, k, lo, hi);
        }
      }
    }
  }

  lemma NoRange(lo: int, hi: int)
    ensures Within([], lo, hi) == [] && StartColumns([], lo, hi) == []
  {
  }

  /** What straddling means, item by item. */
  lemma {:induction false} StraddlesIs(line: Line, column: int)
    ensures Straddles(line, column) <==>
            exists k :: 0 <= k < |line| && line[k].Glyph?
              && Width(line[..k]) < column < Width(line[..k]) + line[k].grapheme.width
  {
    hide Width;
    if line != [] {
      var front := line[..|line| - 1];
      StraddlesIs(front, column);
      forall k | 0 <= k < |front| ensures front[..k] == line[..k] {
      }
    }
  }

  lemma ColumnsPush(cells: seq<Styled>, cell: Styled)
    ensures Columns(cells + [cell]) == Columns(cells) + cell.grapheme.width
  {
    assert (cells + [cell])[..|cells|] == cells;
  }

  lemma {:induction false} ColumnsAppend(a: seq<Styled>, b: seq<Styled>)
    ensures Columns(a + b) == Columns(a) + Columns(b)
  {
    if b == [] {
      assert a + b == a;
    } else {
      var front, last := b[..|b| - 1], b[|b| - 1];
      ColumnsAppend(a, front);
      assert a + b == (a + front) + [last] && b == front + [last];
      ColumnsPush(a + front, last);
      ColumnsPush(front, last);
    }
  }

  lemma {:induction false} SpaceColumns(n: nat, s: Style)
    ensures Columns(SpaceCells(n, s)) == n
  {
    if n > 0 {
      SpaceColumns(n - 1, s);
      assert SpaceCells(n, s) == SpaceCells(n - 1, s) + [Styled(SPACE.grapheme, s)];
      ColumnsPush(SpaceCells(n - 1, s), Styled(SPACE.grapheme, s));
    }
  }

  /** The graphemes of a range start one after the other, the first one at the start of the range unless a
      grapheme straddles it. */
  ghost predicate Contiguous(line: Line, lo: int, hi: int, cells: seq<Styled>, starts: seq<nat>) {
    && Offsets(cells, starts)
    && (cells == [] && Width(line) <= lo ==> !Straddles(line, lo))
    && (cells == [] && lo < Width(line) <= hi ==> Straddles(line, lo))
    && (cells != [] ==> lo <= starts[0] <= Width(line) && (starts[0] == lo <==> !Straddles(line, lo)))
    && (cells != [] && Width(line) <= hi ==> Width(line) == starts[0] + Columns(cells))
  }

  /** Each grapheme starts where the one before it ends. */
  ghost predicate Offsets(cells: seq<Styled>, starts: seq<nat>) {
    |starts| == |cells| && forall k :: 0 <= k < |cells| ==> starts[k] == starts[0] + Columns(cells[..k])
  }

  lemma OffsetsPush(cells: seq<Styled>, starts: seq<nat>, cell: Styled, start: nat)
    requires Offsets(cells, starts) && (cells != [] ==> start == starts[0] + Columns(cells))
    ensures Offsets(cells + [cell], starts + [start])
  {
    hide Columns;
    var longer := cells + [cell];
    NoColumns();
    assert longer[..0] == [] && longer[..|cells|] == cells;
    forall k | 0 <= k < |cells| ensures longer[..k] == cells[..k] {
    }
  }

  lemma ContiguousStart(lo: nat, hi: int)
    ensures Contiguous([], lo, hi, Within([], lo, hi), StartColumns([], lo, hi))
  {
  }

  lemma StartsPush(line: Line, item: Item, lo: int, hi: int)
    ensures var fits := item.Glyph? && lo <= Width(line) < hi && Width(line) + item.grapheme.width <= hi;
            StartColumns(line + [item], lo, hi) == StartColumns(line, lo, hi) + if fits then [Width(line)] else []
    ensures Straddles(line + [item], lo)
       <==> Straddles(line, lo) || (item.Glyph? && Width(line) < lo < Width(line) + item.grapheme.width)
  {
    assert (line + [item])[..|line|] == line;
  }

  lemma ContiguousGlyph(line: Line, item: Item, lo: nat, hi: int, cells: seq<Styled>, starts: seq<nat>)
    requires Contiguous(line, lo, hi, cells, starts)
    requires item.Glyph? && lo <= Width(line) < hi && Width(line) + item.grapheme.width <= hi
    ensures var cell := Styled(item.grapheme, After(line, PLAIN));
            Contiguous(line + [item], lo, hi, cells + [cell], starts + [Width(line)])
  {
    hide Columns, Width, Straddles, After, Within, Offsets, StartColumns, Apply, Read;
    var cell := Styled(item.grapheme, After(line, PLAIN));
    StartsPush(line, item, lo, hi);
    WithinPush(line, item, lo, hi);
    SameLength(cells, starts);
    OffsetsPush(cells, starts, cell, Width(line));
    ColumnsPush(cells, cell);
    NoColumns();
  }

  lemma SameLength(cells: seq<Styled>, starts: seq<nat>)
    requires Offsets(cells, starts)
    ensures |cells| == |starts|
  {
  }

  lemma ContiguousOther(line: Line, item: Item, lo: nat, hi: int, cells: seq<Styled>, starts: seq<nat>)
    requires Contiguous(line, lo, hi, cells, starts)
    requires !(item.Glyph? && lo <= Width(line) < hi && Width(line) + item.grapheme.width <= hi)
    ensures Contiguous(line + [item], lo, hi, cells, starts)
  {
    hide Columns, Width, Straddles, After, Within, Offsets, StartColumns, Apply, Read;
    StartsPush(line, item, lo, hi);
    WithinPush(line, item, lo, hi);
  }

  lemma NoColumns()
    ensures Columns([]) == 0
  {
  }

  lemma {:induction false} RangeIsContiguous(line: Line, lo: nat, hi: int)
    ensures Contiguous(line, lo, hi, Within(line, lo, hi), StartColumns(line, lo, hi))
  {
    hide Contiguous, Within, StartColumns, Width, After;
    if line == [] {
      ContiguousStart(lo, hi);
    } else {
      var front, item := line[..|line| - 1], line[|line| - 1];
      assert line == front + [item];
      RangeIsContiguous(front, lo, hi);
      RangePush(front, item, lo, hi);
      var cells, starts := Within(front, lo, hi), StartColumns(front, lo, hi);
      if item.Glyph? && lo <= Width(front) < hi && Width(front) + item.grapheme.width <= hi {
        ContiguousGlyph(front, item, lo, hi, cells, starts);
      } else {
        ContiguousOther(front, item, lo, hi, cells, starts);
      }
    }
  }

  lemma RangePush(line: Line, item: Item, lo: nat, hi: int)
    ensures var fits := item.Glyph? && lo <= Width(line) < hi && Width(line) + item.grapheme.width <= hi;
            var cells, starts := Within(line, lo, hi), StartColumns(line, lo, hi);
            && Within(line + [item], lo, hi)
               == (if fits then cells + [Styled(item.grapheme, After(line, PLAIN))] else cells)
            && StartColumns(line + [item], lo, hi) == if fits then starts + [Width(line)] else starts
  {
    hide Within, StartColumns, Width, After;
    WithinPush(line, item, lo, hi);
    StartsPush(line, item, lo, hi);
    assert Within(line, lo, hi) + [] == Within(line, lo, hi);
    assert StartColumns(line, lo, hi) + [] == StartColumns(line, lo, hi);
  }

  /** From grapheme number `from` on, the graphemes of the line are at the given columns, moved by `shift`. */
  predicate AtColumns(cells: seq<Styled>, from: nat, starts: seq<nat>, shift: nat) {
    from + |starts| <= |cells| && forall k :: 0 <= k < |starts| ==> Columns(cells[..from + k]) == starts[k] + shift
  }

  /** Part of a line that begins at a column: its graphemes keep the columns they had, moved by `shift`, if and
      only if that is where they began. */
  lemma PartAtColumns(front: seq<Styled>, line: Line, lo: nat, hi: int, back: seq<Styled>, shift: nat)
    requires Columns(front) == lo + shift
    ensures AtColumns(front + Within(line, lo, hi) + back, |front|, StartColumns(line, lo, hi), shift)
       <==> Within(line, lo, hi) == [] || !Straddles(line, lo)
  {
    hide Columns, Within, StartColumns, Straddles, Width, Offsets, AtColumns;
    RangeIsContiguous(line, lo, hi);
    CellsAtColumns(front, Within(line, lo, hi), StartColumns(line, lo, hi), back, lo, shift);
    SameLength(Within(line, lo, hi), StartColumns(line, lo, hi));
  }

  lemma ColumnOf(front: seq<Styled>, part: seq<Styled>, back: seq<Styled>, k: nat)
    requires k <= |part|
    ensures Columns((front + part + back)[..|front| + k]) == Columns(front) + Columns(part[..k])
  {
    hide Columns;
    assert (front + part + back)[..|front| + k] == front + part[..k];
    ColumnsAppend(front, part[..k]);
  }

  lemma CellsAtColumns(front: seq<Styled>, part: seq<Styled>, starts: seq<nat>, back: seq<Styled>, lo: nat, shift: nat)
    requires Columns(front) == lo + shift && Offsets(part, starts)
    ensures AtColumns(front + part + back, |front|, starts, shift) <==> part == [] || starts[0] == lo
  {
    hide Columns, Offsets;
    SameLength(part, starts);
    var cells := front + part + back;
    if part != [] {
      FirstOffset(front, part, back);
      if starts[0] == lo {
        forall k | 0 <= k < |part| ensures Columns(cells[..|front| + k]) == starts[k] + shift {
          ColumnOf(front, part, back, k);
          OffsetOf(part, starts, k);
        }
      } else {
        assert Columns(cells[..|front| + 0]) != starts[0] + shift;
      }
    }
  }

  lemma FirstOffset(front: seq<Styled>, part: seq<Styled>, back: seq<Styled>)
    ensures Columns((front + part + back)[..|front| + 0]) == Columns(front)
  {
    hide Columns;
    assert (front + part + back)[..|front| + 0] == front;
  }

  lemma OffsetOf(cells: seq<Styled>, starts: seq<nat>, k: nat)
    requires Offsets(cells, starts) && k < |cells|
    ensures k < |starts| && starts[k] == starts[0] + Columns(cells[..k])
  {
    hide Columns;
  }

  lemma {:induction false} NothingStraddlesTheEdge(line: Line)
    ensures !Straddles(line, 0)
  {
    if line != [] {
      NothingStraddlesTheEdge(line[..|line| - 1]);
    }
  }

  /** Where the graphemes of base and overlay are in the composed line. */
  ghost predicate Placed(cells: seq<Styled>, base: Line, overlay: Line, startCol: nat, overlayWidth: nat,
                         totalWidth: nat) {
    var afterStart := startCol + overlayWidth;
    var a, b := Within(base, 0, startCol), Within(overlay, 0, overlayWidth);
    && Columns(a) <= startCol && Columns(b) <= overlayWidth
    && var overlayFrom := |a| + startCol - Columns(a);
       var afterFrom := overlayFrom + |b| + overlayWidth - Columns(b);
       && AtColumns(cells, 0, StartColumns(base, 0, startCol), 0)
       && AtColumns(cells, overlayFrom, StartColumns(overlay, 0, overlayWidth), startCol)
       && (AtColumns(cells, afterFrom, StartColumns(base, afterStart, totalWidth), 0)
           <==> Within(base, afterStart, totalWidth) == [] || !Straddles(base, afterStart))
  }

  /** What is before the overlay and the overlay itself are where they should be. What is left of the base
      after it keeps its columns if and only if no grapheme straddles the column after the overlay, or
      nothing is left there. */
  lemma ComposedIsPlaced(cells: seq<Styled>, base: Line, overlay: Line, startCol: nat, overlayWidth: nat,
                         totalWidth: nat)
    requires startCol + overlayWidth <= totalWidth
    requires var afterStart := startCol + overlayWidth;
             Composed(cells, Within(base, 0, startCol), startCol, Within(overlay, 0, overlayWidth), overlayWidth,
                      Within(base, afterStart, totalWidth), totalWidth - afterStart)
    ensures Placed(cells, base, overlay, startCol, overlayWidth, totalWidth)
  {
    hide Columns, Within, StartColumns, Straddles, SpaceCells, AtColumns;
    var afterStart := startCol + overlayWidth;
    var a, b, c := Within(base, 0, startCol), Within(overlay, 0, overlayWidth), Within(base, afterStart, totalWidth);
    var n1: nat, s1: Style, n2: nat, s2: Style, n3: nat, s3: Style :|
      && PaddedCells(cells, a, n1, s1, b, n2, s2, c, n3, s3)
      && Columns(a) + n1 == startCol && Columns(b) + n2 == overlayWidth && Columns(c) + n3 == totalWidth - afterStart;
    var p1, p2, p3 := SpaceCells(n1, s1), SpaceCells(n2, s2), SpaceCells(n3, s3);
    Padding(n1, s1);
    Padding(n2, s2);
    NothingStraddlesTheEdge(base);
    NothingStraddlesTheEdge(overlay);
    NoColumns();
    var none: seq<Styled> := [];
    assert cells == none + a + (p1 + (b + p2 + (c + p3)));
    PartAtColumns(none, base, 0, startCol, p1 + (b + p2 + (c + p3)), 0);
    assert cells == (a + p1) + b + (p2 + (c + p3));
    ColumnsAppend(a, p1);
    PartAtColumns(a + p1, overlay, 0, overlayWidth, p2 + (c + p3), startCol);
    assert cells == (a + p1 + b + p2) + c + p3;
    ColumnsAppend(a + p1, b);
    ColumnsAppend(a + p1 + b, p2);
    PartAtColumns(a + p1 + b + p2, base, afterStart, totalWidth, p3, 0);
  }

  /** Such a line: `a`, a wide grapheme, `b`. After an overlay of its first two columns, `b` moves from
      column 3 to column 2. */
  lemma WideGraphemeIsStraddled(a: Grapheme, w: Grapheme, b: Grapheme)
    requires a.width == b.width == 1 && w.width == 2
    ensures var base := [Glyph(a), Glyph(w), Glyph(b)];
            Straddles(base, 2) && StartColumns(base, 2, 4) == [3] && |Within(base, 2, 4)| == 1
  {
    hide Straddles, StartColumns, Within, Read, After, Width;
    var none: Line := [];
    NothingYet(2, 4);
    OneMore(none, a, 2, 4);
    OneMore([Glyph(a)], w, 2, 4);
    OneMore([Glyph(a), Glyph(w)], b, 2, 4);
    assert none + [Glyph(a)] == [Glyph(a)] && [Glyph(a)] + [Glyph(w)] == [Glyph(a), Glyph(w)];
    assert [Glyph(a), Glyph(w)] + [Glyph(b)] == [Glyph(a), Glyph(w), Glyph(b)];
  }

  lemma NothingYet(lo: nat, hi: int)
    ensures Width([]) == 0 && !Straddles([], lo) && StartColumns([], lo, hi) == [] && Within([], lo, hi) == []
  {
  }

  lemma OneMore(line: Line, g: Grapheme, lo: nat, hi: int)
    ensures var longer, end := line + [Glyph(g)], Width(line) + g.width;
            var fits := lo <= Width(line) < hi && end <= hi;
            && Width(longer) == end && (Straddles(longer, lo) <==> Straddles(line, lo) || Width(line) < lo < end)
            && StartColumns(longer, lo, hi) == StartColumns(line, lo, hi) + (if fits then [Width(line)] else [])
            && |Within(longer, lo, hi)| == |Within(line, lo, hi)| + if fits then 1 else 0
  {
    hide Straddles, StartColumns, Within, Read, After, Width;
    WithinPush(line, Glyph(g), lo, hi);
    StartsPush(line, Glyph(g), lo, hi);
  }

  lemma Padding(n: nat, s: Style)
    ensures |SpaceCells(n, s)| == n && Columns(SpaceCells(n, s)) == n
  {
    SpaceColumns(n, s);
  }

  /** Puts the overlay on the base line. If it lies inside the line, the result is exactly as wide as
      the terminal and is not cut: what is left of the base line before the overlay, the overlay from
      its column on, and what is left of the base line after it, all with the styles they had, and at
      their columns as `Placed` says. */
  method CompositeLineAt(base: Line, overlay: Line, startCol: nat, overlayWidth: nat, totalWidth: nat)
    returns (result: Line)
    ensures Width(result) <= totalWidth
    ensures startCol + overlayWidth <= totalWidth ==>
              var afterStart := startCol + overlayWidth;
              && Width(result) == totalWidth
              && Composed(Read(result, PLAIN), Within(base, 0, startCol), startCol, Within(overlay, 0, overlayWidth),
                          overlayWidth, Within(base, afterStart, totalWidth), totalWidth - afterStart)
              && Placed(Read(result, PLAIN), base, overlay, startCol, overlayWidth, totalWidth)
  {
    hide Read, After, Width, Compose, Within, Composed, SpaceCells, Placed;
    var afterStart := startCol + overlayWidth;
    var before, beforeWidth, after, afterWidth := ExtractSegments(base, startCol, afterStart, totalWidth - afterStart);
    var text, width := SliceWithWidth(overlay, 0, overlayWidth);
    NothingEarly(overlay, overlayWidth);
    var beforePad := Max(0, startCol - beforeWidth);
    var overlayPad := Max(0, overlayWidth - width);
    var actualBeforeWidth := Max(startCol, beforeWidth);
    var actualOverlayWidth := Max(overlayWidth, width);
    var afterTarget := Max(0, totalWidth - actualBeforeWidth - actualOverlayWidth);
    var afterPad := Max(0, afterTarget - afterWidth);
    result := Compose(before, beforePad, text, overlayPad, after, afterPad);
    IsComposed(before, beforePad, text, overlayPad, after, afterPad);
    var resultWidth := Width(result);
    if startCol + overlayWidth <= totalWidth {
      ComposedIsPlaced(Read(result, PLAIN), base, overlay, startCol, overlayWidth, totalWidth);
    }
    if resultWidth <= totalWidth {
      return;
    }
    result, resultWidth := SliceWithWidth(result, 0, totalWidth);
  }
}
