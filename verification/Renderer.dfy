/** The differential renderer: it remembers what it last drew and sends only cursor moves, line
    erasures and changed lines, where a full redraw would clear everything and put every line. */
module Renderer {
  import opened Terminals
  import opened Text

  /** A line as components render it, the cursor marker (and its column) already recognised. */
  datatype RawLine = RawLine(text: string, marker: Option<nat>)

  datatype Mark = Mark(row: nat, column: nat)

  const SEGMENT_RESET := "\U{001B}[0m\U{001B}]8;;\U{0007}"

  /** What the renderer believes is on the terminal: the lines, the row at the top of the screen and
      the most lines drawn since the last clear. */
  datatype View = View(lines: seq<string>, top: nat, drawn: nat)

  /** A view from which a differential render can reach every row it has to touch. */
  predicate Reaches(v: View, height: nat) {
    && |v.lines| <= v.top + height
    && (v.top == 0 || v.top < |v.lines|)
    && |v.lines| <= v.drawn
    && AllNonEmpty(v.lines)
  }

  /** Rows that have scrolled off would have to change, or nothing would be left on the screen. */
  predicate ScrolledOffChanges(v: View, lines: seq<string>) {
    0 < v.top && !(v.top < |lines| && lines[..v.top] == v.lines[..Min(v.top, |v.lines|)])
  }

  /** The view after drawing `lines`; `clear` says that a full redraw was asked for. */
  function NextView(v: View, height: nat, lines: seq<string>, clear: bool): View {
    if clear || ScrolledOffChanges(v, lines)
    then View(lines, Max(0, |lines| - height), |lines|)
    else View(lines, Max(v.top, |lines| - height), Max(v.drawn, |lines|))
  }

  /** A frame to draw: its lines, and whether it is to be drawn by clearing first. */
  datatype Frame = Frame(lines: seq<string>, clear: bool)

  function Views(height: nat, frames: seq<Frame>): View {
    if frames == [] then View([], 0, 0)
    else
      var last := frames[|frames| - 1];
      NextView(Views(height, frames[..|frames| - 1]), height, last.lines, last.clear)
  }

  /** Over every run, the drawn lines fit the rows from the top of the scrollback to the bottom of
      the screen, and at least one of them is on the screen. */
  lemma {:induction false} ViewportInvariant(height: nat, frames: seq<Frame>)
    requires 0 < height
    requires forall f :: f in frames ==> AllNonEmpty(f.lines)
    ensures Reaches(Views(height, frames), height)
  {
    if frames != [] {
      ViewportInvariant(height, frames[..|frames| - 1]);
    }
  }

  /** The simple renderer: print every line, one below the other. */
  function PrintAll(lines: seq<string>, width: string -> nat): seq<Command> {
    if lines == [] then []
    else
      var front, last := lines[..|lines| - 1], lines[|lines| - 1];
      PrintAll(front, width) + (if front == [] then [] else NEWLINE) + [Print(last, width(last))]
  }

  predicate Fits(lines: seq<string>, width: string -> nat, columns: nat) {
    forall k :: 0 <= k < |lines| ==> width(lines[k]) <= columns
  }

  predicate Clean(t: Terminal) {
    t.scrollback == [] && t.screen == Blanks(|t.screen|) && t.row == 0 && t.column == 0
  }

  lemma PaddedGrows(lines: seq<string>, length: nat, more: nat)
    requires |lines| <= length
    ensures Padded(lines, length) + Blanks(more) == Padded(lines, length + more)
  {
  }

  lemma PaddedTakes(lines: seq<string>, line: string, length: nat)
    requires |lines| < length
    ensures Padded(lines, length)[|lines| := Shows(line)] == Padded(lines + [line], length)
  {
  }

  /** Printing on the row after the last line shows one line more. */
  lemma PrintNext(t: Terminal, lines: seq<string>, top: nat, line: string, width: nat)
    requires t.Valid() && width <= t.columns && t.column == 0
    requires Displays(t, lines, top) && t.Cursor() == |lines|
    ensures var u := t.Step(Print(line, width));
            Displays(u, lines + [line], top) && u.Cursor() == |lines|
  {
    t.PrintStep(line, width);
    PaddedTakes(lines, line, t.Top() + t.Height());
  }

  lemma NewlineDisplays(t: Terminal, lines: seq<string>, top: nat)
    requires t.Valid() && Displays(t, lines, top) && t.Cursor() + 1 == |lines|
    ensures var u := t.Step(CarriageReturn).Step(LineFeed);
            && Displays(u, lines, Max(top, |lines| + 1 - t.Height()))
            && u.Cursor() == |lines| && u.column == 0
  {
    t.NewlineStep();
    var u := t.Step(CarriageReturn).Step(LineFeed);
    PaddedGrows(lines, t.Top() + t.Height(), u.Top() - t.Top());
  }

  /** Where printing the lines on a clean terminal leaves it. */
  lemma {:induction false} PrintAllDisplays(t: Terminal, lines: seq<string>, width: string -> nat)
    requires t.Valid() && Clean(t) && Fits(lines, width, t.columns)
    ensures var u := t.Run(PrintAll(lines, width));
            && Displays(u, lines, Max(0, |lines| - t.Height()))
            && u.Cursor() == Max(0, |lines| - 1)
            && (lines == [] ==> u.column == 0)
  {
    if lines == [] {
      assert t.Page() == t.screen;
    } else {
      var front, last := lines[..|lines| - 1], lines[|lines| - 1];
      assert lines == front + [last];
      PrintAllDisplays(t, front, width);
      PrintOneMore(t, front, last, width);
    }
  }

  lemma PrintOneMore(t: Terminal, front: seq<string>, last: string, width: string -> nat)
    requires t.Valid() && Clean(t) && width(last) <= t.columns
    requires var u := t.Run(PrintAll(front, width));
             && Displays(u, front, Max(0, |front| - t.Height()))
             && u.Cursor() == Max(0, |front| - 1) && (front == [] ==> u.column == 0)
    ensures var u := t.Run(PrintAll(front + [last], width));
            && Displays(u, front + [last], Max(0, |front| + 1 - t.Height()))
            && u.Cursor() == |front|
  {
    hide Terminal.Run, Terminal.Step, Displays;
    var put, cs := Print(last, width(last)), PrintAll(front, width);
    assert (front + [last])[..|front|] == front;
    if front == [] {
      assert PrintAll(front + [last], width) == cs + [put];
      t.RunPush(cs, put);
      PrintNext(t.Run(cs), front, 0, last, width(last));
    } else {
      assert PrintAll(front + [last], width) == cs + NEWLINE + [put];
      t.RunPush2(cs, CarriageReturn, LineFeed);
      t.RunPush(cs + NEWLINE, put);
      NewlineDisplays(t.Run(cs), front, Max(0, |front| - t.Height()));
      PrintNext(t.Run(cs + NEWLINE), front, Max(0, |front| + 1 - t.Height()), last, width(last));
    }
  }

  lemma ClearCleans(t: Terminal)
    requires t.Valid()
    ensures Clean(t.Run(CLEAR))
  {
    assert CLEAR == ([] + [EraseScreen, Home]) + [EraseScrollback];
    t.RunPush2([], EraseScreen, Home);
    t.RunPush([EraseScreen, Home], EraseScrollback);
  }

  /** A terminal that displays the lines has, row for row, what clearing any terminal of the same
      size and printing them gives, followed by blank rows; with the same top it is the same screen. */
  lemma RefinesFullRedraw(t: Terminal, u: Terminal, lines: seq<string>, top: nat, width: string -> nat)
    requires t.Valid() && u.Valid() && t.Height() == u.Height() && t.columns == u.columns
    requires Fits(lines, width, t.columns)
    requires Displays(t, lines, top)
    ensures var redrawn := u.Run(CLEAR + PrintAll(lines, width));
            var extra := top - Max(0, |lines| - t.Height());
            && 0 <= extra && t.Page() == redrawn.Page() + Blanks(extra)
            && (extra == 0 ==> t.scrollback == redrawn.scrollback && t.screen == redrawn.screen)
  {
    hide Terminal.Run, Terminal.Step;
    ClearCleans(u);
    u.RunAppend(CLEAR, PrintAll(lines, width));
    PrintAllDisplays(u.Run(CLEAR), lines, width);
    var redrawn := u.Run(CLEAR + PrintAll(lines, width));
    if top == redrawn.Top() {
      assert t.Page() == redrawn.Page();
      assert t.scrollback == t.Page()[..top] && t.screen == t.Page()[top..];
      assert redrawn.scrollback == redrawn.Page()[..top] && redrawn.screen == redrawn.Page()[top..];
    }
  }

  /** The marker row is looked for in the last `height` lines only; that can lie above the screen. */
  predicate MarkerVisible(mark: Option<Mark>, lines: nat, top: nat) {
    mark.Some? && 0 < lines ==> top <= Min(mark.value.row, lines - 1)
  }

  /** The hardware cursor is where the marker is, or on the first row of the screen if the marker is above it. */
  predicate AtMark(t: Terminal, mark: Option<Mark>, lines: nat) {
    mark.Some? && 0 < lines ==>
      && t.Cursor() == Max(t.Top(), Min(mark.value.row, lines - 1))
      && t.column == Min(t.columns - 1, mark.value.column)
  }

  /** The last marked line among lines `lo` to `hi`. */
  function LastMark(raw: seq<RawLine>, lo: nat, hi: nat): Option<Mark>
    requires hi <= |raw|
  {
    if hi <= lo then None
    else if raw[hi - 1].marker.Some? then Some(Mark(hi - 1, raw[hi - 1].marker.value))
    else LastMark(raw, lo, hi - 1)
  }

  /** Only the last `height` lines are searched for the marker. */
  method ExtractCursorPosition(raw: seq<RawLine>, height: nat) returns (mark: Option<Mark>)
    ensures mark == LastMark(raw, Max(0, |raw| - height), |raw|)
  {
    var viewportTop := Max(0, |raw| - height);
    var row := |raw| - 1;
    while row >= viewportTop
      invariant viewportTop - 1 <= row < |raw|
      invariant LastMark(raw, viewportTop, |raw|) == LastMark(raw, viewportTop, row + 1)
    {
      if raw[row].marker.Some? {
        return Some(Mark(row, raw[row].marker.value));
      }
      row := row - 1;
    }
    mark := None;
  }

  lemma {:induction false} LastMarkIsLast(raw: seq<RawLine>, lo: nat, hi: nat)
    requires lo <= hi <= |raw|
    ensures match LastMark(raw, lo, hi)
            case None => forall k :: lo <= k < hi ==> raw[k].marker.None?
            case Some(m) => && lo <= m.row < hi && raw[m.row].marker == Some(m.column)
                            && forall k :: m.row < k < hi ==> raw[k].marker.None?
  {
    if lo < hi && raw[hi - 1].marker.None? {
      LastMarkIsLast(raw, lo, hi - 1);
    }
  }

  /** A marker that is found can be above the screen only while the screen starts lower than a full
      redraw would start it, which takes an earlier frame with more lines. */
  lemma FoundMarkerIsVisibleAfterFullRedraw(raw: seq<RawLine>, height: nat)
    ensures MarkerVisible(LastMark(raw, Max(0, |raw| - height), |raw|), |raw|, Max(0, |raw| - height))
  {
    LastMarkIsLast(raw, Max(0, |raw| - height), |raw|);
  }

  /** Three lines on two rows shrink to two lines, the first one marked: the marker is found, and it
      is above the screen. */
  lemma MarkerAboveTheScreen()
    ensures var v := Views(2, [Frame(["a", "b", "c"], false), Frame(["a", "b"], false)]);
            var raw := [RawLine("a", Some(0)), RawLine("b", None)];
            var mark := LastMark(raw, Max(0, |raw| - 2), |raw|);
            v == View(["a", "b"], 1, 3) && mark == Some(Mark(0, 0)) && !MarkerVisible(mark, |raw|, v.top)
  {
    var one := [Frame(["a", "b", "c"], false)];
    var two := [Frame(["a", "b", "c"], false), Frame(["a", "b"], false)];
    assert one[..0] == [] && two[..1] == one;
    assert Views(2, one) == View(["a", "b", "c"], 1, 3);
    assert ["a", "b"][..1] == ["a", "b", "c"][..1];
    var raw := [RawLine("a", Some(0)), RawLine("b", None)];
    assert LastMark(raw, 0, 2) == LastMark(raw, 0, 1);
  }

  lemma SameRows(a: seq<string>, b: seq<string>, lo: nat, hi: nat)
    requires lo <= hi <= Max(|a|, |b|)
    requires forall k :: lo <= k < hi ==> RowAt(a, k) == RowAt(b, k)
    ensures lo < hi ==> hi <= |a| && hi <= |b| && a[lo..hi] == b[lo..hi]
  {
    if lo < hi {
      assert RowAt(a, hi - 1) == RowAt(b, hi - 1);
      forall k | lo <= k < hi ensures k < |a| && k < |b| && a[k] == b[k] {
        assert RowAt(a, k) == RowAt(b, k);
      }
    }
  }

  /** `first` and `last` enclose every index at which the lines differ, tightly at the start. */
  predicate Changed(previous: seq<string>, lines: seq<string>, first: int, last: int) {
    && 0 <= first <= last < Max(|lines|, |previous|)
    && first <= |lines| && first <= |previous|
    && lines[..first] == previous[..first]
    && (first < |lines| && first < |previous| ==> lines[first] != previous[first])
    && (last + 1 < |lines| ==> |lines| == |previous| && lines[last + 1..] == previous[last + 1..])
    && (|lines| != |previous| ==> last == Max(|lines|, |previous|) - 1)
    && (|lines| == |previous| ==> lines[last] != previous[last])
  }

  /** First and last index at which the lines differ, a missing line counting as empty; -1 if none. */
  method ChangedRange(previous: seq<string>, lines: seq<string>) returns (first: int, last: int)
    requires AllNonEmpty(previous) && AllNonEmpty(lines)
    ensures first == -1 <==> previous == lines
    ensures first != -1 ==> 0 <= first <= last && Changed(previous, lines, first, last)
  {
    hide Changed;
    first, last := -1, -1;
    var maxLines := Max(|lines|, |previous|);
    var i := 0;
    while i < maxLines
      invariant 0 <= i <= maxLines
      invariant Compared(previous, lines, first, last, i)
    {
      var oldLine := if i < |previous| then previous[i] else "";
      var newLine := if i < |lines| then lines[i] else "";
      assert oldLine != newLine <==> RowAt(lines, i) != RowAt(previous, i);
      if oldLine != newLine {
        if first == -1 {
          first := i;
        }
        last := i;
      }
      i := i + 1;
    }
    if first == -1 {
      NoneChanged(previous, lines, last);
    } else {
      SomeChanged(previous, lines, first, last);
      if |lines| > |previous| {
        last := |lines| - 1;
      }
    }
  }

  /** What is known once the rows before `i` have been compared. */
  ghost predicate Compared(previous: seq<string>, lines: seq<string>, first: int, last: int, i: nat) {
    && (first == -1 ==> last == -1)
    && (first != -1 ==> 0 <= first <= last < i)
    && (forall k :: 0 <= k < (if first == -1 then i else first) ==> RowAt(lines, k) == RowAt(previous, k))
    && (first != -1 ==> RowAt(lines, first) != RowAt(previous, first) && RowAt(lines, last) != RowAt(previous, last))
    && (forall k :: last < k < i ==> RowAt(lines, k) == RowAt(previous, k))
  }

  lemma NoneChanged(previous: seq<string>, lines: seq<string>, last: int)
    requires Compared(previous, lines, -1, last, Max(|lines|, |previous|))
    ensures previous == lines
  {
    var maxLines := Max(|lines|, |previous|);
    SameRows(lines, previous, 0, maxLines);
    assert lines == lines[..maxLines] && previous == previous[..maxLines];
  }

  lemma SomeChanged(previous: seq<string>, lines: seq<string>, first: int, last: int)
    requires 0 <= first && Compared(previous, lines, first, last, Max(|lines|, |previous|))
    ensures previous != lines
    ensures Changed(previous, lines, first, if |lines| > |previous| then |lines| - 1 else last)
  {
    var maxLines := Max(|lines|, |previous|);
    if |lines| != |previous| {
      LastRowDiffers(previous, lines);
    }
    SameRows(lines, previous, 0, first);
    if last + 1 < |lines| {
      SameRows(lines, previous, last + 1, maxLines);
    }
  }

  lemma LastRowDiffers(previous: seq<string>, lines: seq<string>)
    requires |lines| != |previous|
    ensures var n := Max(|lines|, |previous|); RowAt(lines, n - 1) != RowAt(previous, n - 1)
    ensures var n := Min(|lines|, |previous|); RowAt(lines, n) != RowAt(previous, n)
  {
  }

  /** The buffer of a full redraw. */
  method FullBuffer(clear: bool, lines: seq<string>, width: string -> nat) returns (buffer: seq<Command>)
    ensures buffer == (if clear then CLEAR else []) + PrintAll(lines, width)
  {
    buffer := [];
    if clear {
      buffer := buffer + CLEAR;
    }
    ghost var start := buffer;
    var i := 0;
    while i < |lines|
      invariant 0 <= i <= |lines|
      invariant buffer == start + PrintAll(lines[..i], width)
    {
      assert lines[..i + 1][..i] == lines[..i];
      if i > 0 {
        buffer := buffer + NEWLINE;
      }
      buffer := buffer + [Print(lines[i], width(lines[i]))];
      i := i + 1;
    }
    assert lines[..|lines|] == lines;
  }

  /** Row moves the renderer asks for: down, up, or none when the distance is 0. */
  function Move(distance: int): seq<Command> {
    if distance > 0 then [Down(distance)] else if distance < 0 then [Up(-distance)] else []
  }

  lemma MoveRuns(t: Terminal, cs: seq<Command>, target: nat)
    requires t.Valid()
    requires var u := t.Run(cs); u.Top() <= target < u.Top() + u.Height()
    ensures var u := t.Run(cs);
            t.Run(cs + Move(target - u.Cursor())) == u.(row := target - u.Top())
  {
    hide Terminal.Run, Terminal.Step;
    var u := t.Run(cs);
    u.MoveTo(target);
    if target == u.Cursor() {
      assert cs + [] == cs;
    } else {
      t.RunPush(cs, Move(target - u.Cursor())[0]);
    }
  }

  lemma MixedTakes(lines: seq<string>, previous: seq<string>, i: nat, length: nat)
    requires i < length
    ensures Mixed(lines, previous, i, length)[i := RowAt(lines, i)] == Mixed(lines, previous, i + 1, length)
  {
  }

  /** After running `cs`: the screen starts at `top`, the cursor is on row `cursor` (at column 0 if
      `margin`), and rows before `i` hold the new lines, the others the old ones. */
  ghost predicate Painted(t: Terminal, cs: seq<Command>, top: nat, cursor: nat, margin: bool,
                          lines: seq<string>, previous: seq<string>, i: nat)
    requires t.Valid()
  {
    var u := t.Run(cs);
    && u.Top() == top && u.Cursor() == cursor && (margin ==> u.column == 0)
    && u.Page() == Mixed(lines, previous, i, top + t.Height())
  }

  lemma PaintStart(t: Terminal, top: nat, lines: seq<string>, previous: seq<string>, i: nat)
    requires t.Valid() && Displays(t, previous, top)
    requires i <= |lines| && i <= |previous| && lines[..i] == previous[..i]
    ensures Painted(t, [], top, t.Cursor(), false, lines, previous, i)
  {
    assert Padded(previous, top + t.Height()) == Mixed(lines, previous, i, top + t.Height());
  }

  lemma PaintMove(t: Terminal, cs: seq<Command>, top: nat, cursor: nat, target: nat, margin: bool,
                  lines: seq<string>, previous: seq<string>, i: nat)
    requires t.Valid() && Painted(t, cs, top, cursor, margin, lines, previous, i)
    requires top <= target < top + t.Height()
    ensures Painted(t, cs + Move(target - cursor), top, target, margin, lines, previous, i)
  {
    hide Terminal.Run, Terminal.Step, Mixed;
    MoveRuns(t, cs, target);
  }

  lemma PaintReturn(t: Terminal, cs: seq<Command>, top: nat, cursor: nat, margin: bool,
                    lines: seq<string>, previous: seq<string>, i: nat)
    requires t.Valid() && Painted(t, cs, top, cursor, margin, lines, previous, i)
    ensures Painted(t, cs + [CarriageReturn], top, cursor, true, lines, previous, i)
  {
    hide Terminal.Run, Mixed;
    t.RunPush(cs, CarriageReturn);
  }

  lemma PaintNewline(t: Terminal, cs: seq<Command>, top: nat, cursor: nat, margin: bool,
                     lines: seq<string>, previous: seq<string>, i: nat)
    requires t.Valid() && Painted(t, cs, top, cursor, margin, lines, previous, i)
    requires i <= top + t.Height() && |previous| <= top + t.Height()
    ensures Painted(t, cs + NEWLINE, Max(top, cursor + 2 - t.Height()), cursor + 1, true, lines, previous, i)
  {
    hide Terminal.Run;
    var u := t.Run(cs);
    t.RunPush2(cs, CarriageReturn, LineFeed);
    u.NewlineStep();
    var more := Max(top, cursor + 2 - t.Height()) - top;
    assert Mixed(lines, previous, i, top + t.Height()) + Blanks(more)
           == Mixed(lines, previous, i, top + t.Height() + more);
  }

  /** Erasing a row below the last new line. */
  lemma PaintErase(t: Terminal, cs: seq<Command>, top: nat, margin: bool, lines: seq<string>, previous: seq<string>,
                   i: nat)
    requires t.Valid() && Painted(t, cs, top, i, margin, lines, previous, i)
    requires |lines| <= i
    ensures Painted(t, cs + [EraseLine], top, i, margin, lines, previous, i + 1)
  {
    hide Terminal.Run;
    t.RunPush(cs, EraseLine);
    t.Run(cs).EraseLineStep();
    MixedTakes(lines, previous, i, top + t.Height());
  }

  /** Erasing a row and printing its new line. */
  lemma PaintRow(t: Terminal, cs: seq<Command>, top: nat, lines: seq<string>, previous: seq<string>, i: nat, width: nat)
    requires t.Valid() && Painted(t, cs, top, i, true, lines, previous, i)
    requires i < |lines| && width <= t.columns
    ensures Painted(t, cs + [EraseLine, Print(lines[i], width)], top, i, false, lines, previous, i + 1)
  {
    hide Terminal.Run;
    var u := t.Run(cs);
    t.RunPush2(cs, EraseLine, Print(lines[i], width));
    u.EraseLineStep();
    u.Step(EraseLine).PrintStep(lines[i], width);
    var page := Mixed(lines, previous, i, top + t.Height());
    assert page[i := Blank][i := Shows(lines[i])] == page[i := Shows(lines[i])];
    MixedTakes(lines, previous, i, top + t.Height());
  }

  lemma PaintDone(t: Terminal, cs: seq<Command>, top: nat, cursor: nat, margin: bool,
                  lines: seq<string>, previous: seq<string>, i: nat)
    requires t.Valid() && Painted(t, cs, top, cursor, margin, lines, previous, i)
    requires |lines| <= top + t.Height()
    requires forall k :: i <= k < top + t.Height() ==> RowAt(lines, k) == RowAt(previous, k)
    ensures var u := t.Run(cs); Displays(u, lines, top) && u.Cursor() == cursor && (margin ==> u.column == 0)
  {
    hide Terminal.Run, Terminal.Step;
    assert Mixed(lines, previous, i, top + t.Height()) == Padded(lines, top + t.Height());
  }

  /** The buffer for a frame that only drops lines at the end, when the new end is on the screen. */
  method ShrinkBuffer(t: Terminal, hardwareCursorRow: nat, top: nat, previous: seq<string>, lines: seq<string>)
    returns (buffer: seq<Command>)
    requires t.Valid() && Displays(t, previous, top) && t.Cursor() == hardwareCursorRow
    requires |lines| < |previous| && lines == previous[..|lines|]
    requires top <= Max(0, |lines| - 1)
    ensures var u := t.Run(buffer);
            Displays(u, lines, top) && u.Cursor() == Max(0, |lines| - 1) && u.column == 0
  {
    hide Painted, Displays, Terminal.Run, Terminal.Step, RowAt;
    DisplayFits(t, previous, top);
    PaintStart(t, top, lines, previous, |lines|);
    var targetRow := Max(0, |lines| - 1);
    var lineDiff := (targetRow - top) - (hardwareCursorRow - top);
    PaintMove(t, [], top, hardwareCursorRow, targetRow, false, lines, previous, |lines|);
    buffer := [] + Move(lineDiff);
    PaintReturn(t, buffer, top, targetRow, false, lines, previous, |lines|);
    buffer := buffer + [CarriageReturn];
    var extraLines := |previous| - |lines|;
    var clearStartOffset := if |lines| == 0 then 0 else 1;
    PaintMove(t, buffer, top, targetRow, |lines|, true, lines, previous, |lines|);
    buffer := buffer + Move(clearStartOffset);
    buffer := EraseRows(t, buffer, top, previous, lines);
    var moveBack := Max(0, extraLines - 1 + clearStartOffset);
    PaintMove(t, buffer, top, |previous| - 1, targetRow, true, lines, previous, |previous|);
    buffer := buffer + Move(-moveBack);
    NothingBelow(lines, previous, top + t.Height());
    PaintDone(t, buffer, top, targetRow, true, lines, previous, |previous|);
  }

  lemma NothingBelow(lines: seq<string>, previous: seq<string>, length: nat)
    requires |lines| <= |previous|
    ensures forall k :: |previous| <= k < length ==> RowAt(lines, k) == RowAt(previous, k)
  {
  }

  /** Erases the rows of the dropped lines, from the first one down. */
  method EraseRows(t: Terminal, start: seq<Command>, top: nat, previous: seq<string>, lines: seq<string>)
    returns (buffer: seq<Command>)
    requires t.Valid() && |lines| < |previous| <= top + t.Height() && top <= |lines|
    requires Painted(t, start, top, |lines|, true, lines, previous, |lines|)
    ensures Painted(t, buffer, top, |previous| - 1, true, lines, previous, |previous|)
  {
    hide Painted, Terminal.Run, Terminal.Step;
    buffer := start;
    var extraLines := |previous| - |lines|;
    var i := 0;
    while i < extraLines
      invariant 0 <= i <= extraLines
      invariant Painted(t, buffer, top, |lines| + Min(i, extraLines - 1), true, lines, previous, |lines| + i)
    {
      PaintReturn(t, buffer, top, |lines| + i, true, lines, previous, |lines| + i);
      buffer := buffer + [CarriageReturn];
      PaintErase(t, buffer, top, true, lines, previous, |lines| + i);
      buffer := buffer + [EraseLine];
      if i < extraLines - 1 {
        PaintMove(t, buffer, top, |lines| + i, |lines| + i + 1, true, lines, previous, |lines| + i + 1);
        buffer := buffer + [Down(1)];
      }
      i := i + 1;
    }
  }

  /** What is sent to redraw rows `first` to `end`. */
  function RowCommands(lines: seq<string>, first: nat, end: int, width: string -> nat): seq<Command>
    requires end < |lines|
    decreases end - first
  {
    if end < first then []
    else
      RowCommands(lines, first, end - 1, width) + (if end > first then NEWLINE else [])
      + [EraseLine, Print(lines[end], width(lines[end]))]
  }

  /** What is sent to erase `n` rows below and come back. */
  function EraseCommands(n: nat): seq<Command> {
    if n == 0 then [] else EraseCommands(n - 1) + NEWLINE + [EraseLine]
  }

  /** Erases and prints the changed rows, from `first` to `end`, scrolling as needed. */
  method PaintRows(t: Terminal, start: seq<Command>, top: nat, previous: seq<string>, lines: seq<string>,
                   first: nat, end: nat, width: string -> nat)
    returns (buffer: seq<Command>)
    requires t.Valid() && first <= end < |lines| && |previous| <= top + t.Height() && first < top + t.Height()
    requires Fits(lines, width, t.columns)
    requires Painted(t, start, top, first, true, lines, previous, first)
    ensures Painted(t, buffer, Max(top, end + 1 - t.Height()), end, false, lines, previous, end + 1)
    ensures buffer == start + RowCommands(lines, first, end, width)
  {
    hide Painted, Terminal.Run, Terminal.Step;
    buffer := start;
    var i := first;
    assert start + [] == start;
    while i <= end
      invariant first <= i <= end + 1
      invariant buffer == start + RowCommands(lines, first, i - 1, width)
      invariant i == first ==> buffer == start
      invariant i > first ==>
                  Painted(t, buffer, Max(top, i - t.Height()), i - 1, false, lines, previous, i)
    {
      ghost var before, newline := RowCommands(lines, first, i - 1, width), if i > first then NEWLINE else [];
      Joins(start, before, newline, [EraseLine, Print(lines[i], width(lines[i]))]);
      if i > first {
        PaintNewline(t, buffer, Max(top, i - t.Height()), i - 1, false, lines, previous, i);
        buffer := buffer + NEWLINE;
      }
      PaintRow(t, buffer, Max(top, i + 1 - t.Height()), lines, previous, i, width(lines[i]));
      buffer := buffer + [EraseLine, Print(lines[i], width(lines[i]))];
      i := i + 1;
    }
  }

  lemma Joins(a: seq<Command>, b: seq<Command>, c: seq<Command>, d: seq<Command>)
    ensures a + (b + c + d) == a + b + c + d && (c == [] ==> a + b + c == a + b)
  {
  }

  /** Erases the rows of dropped lines below the new end and moves back up. */
  method EraseBelow(t: Terminal, start: seq<Command>, top: nat, previous: seq<string>, lines: seq<string>)
    returns (buffer: seq<Command>)
    requires t.Valid() && 0 < |lines| < |previous| <= top + t.Height() && top < |lines|
    requires Painted(t, start, top, |lines| - 1, false, lines, previous, |lines|)
    ensures Painted(t, buffer, top, |lines| - 1, false, lines, previous, |previous|)
    ensures buffer == start + EraseCommands(|previous| - |lines|) + [Up(|previous| - |lines|)]
  {
    hide Painted, Terminal.Run, Terminal.Step;
    buffer := start;
    var extraLines := |previous| - |lines|;
    var i := |lines|;
    assert start + [] == start;
    while i < |previous|
      invariant |lines| <= i <= |previous|
      invariant buffer == start + EraseCommands(i - |lines|)
      invariant Painted(t, buffer, top, i - 1, false, lines, previous, i)
    {
      Joins(start, EraseCommands(i - |lines|), NEWLINE, [EraseLine]);
      PaintNewline(t, buffer, top, i - 1, false, lines, previous, i);
      buffer := buffer + NEWLINE;
      PaintErase(t, buffer, top, true, lines, previous, i);
      buffer := buffer + [EraseLine];
      Weaken(t, buffer, top, i, lines, previous, i + 1);
      i := i + 1;
    }
    PaintMove(t, buffer, top, |previous| - 1, |lines| - 1, false, lines, previous, |previous|);
    assert Move(-extraLines) == [Up(extraLines)];
    buffer := buffer + [Up(extraLines)];
  }

  lemma Weaken(t: Terminal, cs: seq<Command>, top: nat, cursor: nat, lines: seq<string>, previous: seq<string>, i: nat)
    requires t.Valid() && Painted(t, cs, top, cursor, true, lines, previous, i)
    ensures Painted(t, cs, top, cursor, false, lines, previous, i)
  {
    hide Terminal.Run, Mixed;
  }

  /** The row the first changed line is reached from: appended lines are reached by CR LF. */
  function MoveTarget(previous: seq<string>, lines: seq<string>, first: nat): int {
    if |lines| > |previous| && first == |previous| && first > 0 then first - 1 else first
  }

  /** What is sent to get from the row the cursor is believed to be on to the first changed row. */
  function ReachCommands(hardwareCursorRow: nat, previous: seq<string>, lines: seq<string>, first: nat): seq<Command> {
    var target := MoveTarget(previous, lines, first);
    Move(target - hardwareCursorRow) + (if target < first then NEWLINE else [CarriageReturn])
  }

  /** What a differential render sends: it depends on the row the cursor is believed to be on and on the
      lines, not on the terminal. */
  function DiffCommands(hardwareCursorRow: nat, previous: seq<string>, lines: seq<string>, first: nat, last: nat,
                        width: string -> nat): seq<Command>
    requires lines != []
  {
    ReachCommands(hardwareCursorRow, previous, lines, first)
    + RowCommands(lines, first, Min(last, |lines| - 1), width)
    + (if |previous| > |lines| then EraseCommands(|previous| - |lines|) + [Up(|previous| - |lines|)] else [])
  }

  /** The texts that commands print. */
  function Printed(cs: seq<Command>): seq<string> {
    if cs == [] then []
    else
      var last := cs[|cs| - 1];
      Printed(cs[..|cs| - 1]) + if last.Print? then [last.text] else []
  }

  lemma {:induction false} PrintedAppend(cs: seq<Command>, ds: seq<Command>)
    ensures Printed(cs + ds) == Printed(cs) + Printed(ds)
  {
    if ds == [] {
      assert cs + ds == cs;
    } else {
      assert (cs + ds)[..|cs + ds| - 1] == cs + ds[..|ds| - 1];
      PrintedAppend(cs, ds[..|ds| - 1]);
    }
  }

  lemma PrintedPair(c: Command, d: Command)
    ensures Printed([c, d]) == Printed([c]) + Printed([d])
    ensures Printed([c]) == if c.Print? then [c.text] else []
  {
    assert [c, d] == [c] + [d];
    PrintedAppend([c], [d]);
    assert [c][..0] == [];
  }

  lemma RowPrinted(before: seq<Command>, again: bool, text: string, width: nat)
    ensures Printed(before + (if again then NEWLINE else []) + [EraseLine, Print(text, width)])
         == Printed(before) + [text]
  {
    hide Printed;
    var newline := if again then NEWLINE else [];
    var c := Print(text, width);
    PrintedPair(EraseLine, c);
    PrintedPair(c, EraseLine);
    PrintedPair(CarriageReturn, LineFeed);
    PrintedPair(LineFeed, LineFeed);
    PrintedPair(EraseLine, EraseLine);
    PrintsNothing();
    PrintedAppend(before, newline);
    PrintedAppend(before + newline, [EraseLine, c]);
  }

  lemma {:induction false} RowsPrinted(lines: seq<string>, first: nat, end: int, width: string -> nat)
    requires first - 1 <= end < |lines|
    ensures Printed(RowCommands(lines, first, end, width)) == lines[first..end + 1]
    decreases end - first
  {
    hide Printed;
    if end >= first {
      RowsPrinted(lines, first, end - 1, width);
      RowPrinted(RowCommands(lines, first, end - 1, width), end > first, lines[end], width(lines[end]));
      assert lines[first..end + 1] == lines[first..end] + [lines[end]];
    } else {
      PrintsNothing();
    }
  }

  lemma PrintsNothing()
    ensures Printed([]) == []
  {
  }

  lemma {:induction false} ErasingPrintsNothing(n: nat)
    ensures Printed(EraseCommands(n)) == []
  {
    if n > 0 {
      hide Printed;
      ErasingPrintsNothing(n - 1);
      PrintedPair(CarriageReturn, LineFeed);
      PrintedPair(LineFeed, EraseLine);
      PrintedPair(EraseLine, EraseLine);
      PrintedAppend(EraseCommands(n - 1), NEWLINE);
      PrintedAppend(EraseCommands(n - 1) + NEWLINE, [EraseLine]);
    } else {
      PrintsNothing();
    }
  }

  lemma ReachingPrintsNothing(hardwareCursorRow: nat, previous: seq<string>, lines: seq<string>, first: nat)
    ensures Printed(ReachCommands(hardwareCursorRow, previous, lines, first)) == []
  {
    hide Printed;
    var target := MoveTarget(previous, lines, first);
    var move := Move(target - hardwareCursorRow);
    PrintsNothing();
    if move != [] {
      PrintedPair(move[0], move[0]);
      assert move == [move[0]];
    }
    PrintedPair(CarriageReturn, LineFeed);
    PrintedPair(LineFeed, LineFeed);
    PrintedAppend(move, if target < first then NEWLINE else [CarriageReturn]);
  }

  /** A differential render prints the lines of the changed range and no others. */
  lemma OnlyChangedLinesArePrinted(hardwareCursorRow: nat, previous: seq<string>, lines: seq<string>, first: nat,
                                   last: nat, width: string -> nat)
    requires first <= last && first < |lines|
    ensures Printed(DiffCommands(hardwareCursorRow, previous, lines, first, last, width))
         == lines[first..Min(last, |lines| - 1) + 1]
  {
    hide Printed, RowCommands, EraseCommands, ReachCommands;
    var end := Min(last, |lines| - 1);
    var reach, rows := ReachCommands(hardwareCursorRow, previous, lines, first), RowCommands(lines, first, end, width);
    ReachingPrintsNothing(hardwareCursorRow, previous, lines, first);
    RowsPrinted(lines, first, end, width);
    PrintedAppend(reach, rows);
    PrintsNothing();
    if |previous| > |lines| {
      var n := |previous| - |lines|;
      ErasingPrintsNothing(n);
      PrintedPair(Up(n), Up(n));
      PrintedAppend(EraseCommands(n), [Up(n)]);
      PrintedAppend(reach + rows, EraseCommands(n) + [Up(n)]);
    } else {
      assert reach + rows + [] == reach + rows;
    }
  }

  /** Moves the cursor to column 0 of the first changed row. */
  method MoveToFirst(t: Terminal, hardwareCursorRow: nat, top: nat, previous: seq<string>, lines: seq<string>,
                     first: nat)
    returns (buffer: seq<Command>)
    requires t.Valid() && Displays(t, previous, top) && t.Cursor() == hardwareCursorRow
    requires previous != [] && (top == 0 || top < |previous|)
    requires top <= first < |lines| && first <= |previous| && lines[..first] == previous[..first]
    ensures Painted(t, buffer, Max(top, first + 1 - t.Height()), first, true, lines, previous, first)
    ensures buffer == ReachCommands(hardwareCursorRow, previous, lines, first)
  {
    hide Painted, Displays, Terminal.Run, Terminal.Step;
    DisplayFits(t, previous, top);
    PaintStart(t, top, lines, previous, first);
    var prevViewportBottom := top + t.Height() - 1;
    var moveTargetRow := MoveTarget(previous, lines, first);
    if moveTargetRow > prevViewportBottom {
      // The source scrolls here first; no render gets here.
      assert false;
    }
    var lineDiff := (moveTargetRow - top) - (hardwareCursorRow - top);
    PaintMove(t, [], top, hardwareCursorRow, moveTargetRow, false, lines, previous, first);
    buffer := [] + Move(lineDiff);
    assert buffer == Move(moveTargetRow - hardwareCursorRow);
    if moveTargetRow < first {
      PaintNewline(t, buffer, top, moveTargetRow, false, lines, previous, first);
      buffer := buffer + NEWLINE;
    } else {
      PaintReturn(t, buffer, top, moveTargetRow, false, lines, previous, first);
      buffer := buffer + [CarriageReturn];
    }
  }

  /** The buffer that redraws the changed rows only, and the row the cursor ends on. */
  method DiffBuffer(t: Terminal, hardwareCursorRow: nat, top: nat, previous: seq<string>, lines: seq<string>,
                    first: nat, last: nat, width: string -> nat)
    returns (buffer: seq<Command>, finalCursorRow: nat)
    requires t.Valid() && Displays(t, previous, top) && t.Cursor() == hardwareCursorRow
    requires previous != [] && (top == 0 || top < |previous|)
    requires Changed(previous, lines, first, last) && top <= first < |lines|
    requires Fits(lines, width, t.columns)
    ensures finalCursorRow < |lines|
    ensures Max(top, finalCursorRow - t.Height() + 1) == Max(top, |lines| - t.Height())
    ensures var u := t.Run(buffer);
            Displays(u, lines, Max(top, |lines| - t.Height())) && u.Cursor() == finalCursorRow
    ensures buffer == DiffCommands(hardwareCursorRow, previous, lines, first, last, width)
  {
    hide Painted, Displays, Changed, Terminal.Run, Terminal.Step, ReachCommands, RowCommands, EraseCommands, RowAt;
    DisplayFits(t, previous, top);
    ChangedFacts(previous, lines, first, last);
    buffer := MoveToFirst(t, hardwareCursorRow, top, previous, lines, first);
    var renderEnd := Min(last, |lines| - 1);
    buffer := PaintRows(t, buffer, Max(top, first + 1 - t.Height()), previous, lines, first, renderEnd, width);
    finalCursorRow := renderEnd;
    ghost var newTop := Max(top, |lines| - t.Height());
    PaintTail(previous, lines, first, last, newTop + t.Height());
    if |previous| > |lines| {
      if renderEnd < |lines| - 1 {
        // The source moves down here; the last changed line is then always beyond the new end.
        assert false;
      }
      Joins(buffer, EraseCommands(|previous| - |lines|), [], [Up(|previous| - |lines|)]);
      buffer := EraseBelow(t, buffer, top, previous, lines);
      PaintDone(t, buffer, newTop, finalCursorRow, false, lines, previous, |previous|);
    } else {
      assert buffer + [] == buffer;
      PaintDone(t, buffer, newTop, finalCursorRow, false, lines, previous, renderEnd + 1);
    }
  }

  lemma DisplayFits(t: Terminal, lines: seq<string>, top: nat)
    requires t.Valid() && Displays(t, lines, top)
    ensures |lines| <= top + t.Height() && t.Top() == top
  {
  }

  lemma ChangedFacts(previous: seq<string>, lines: seq<string>, first: int, last: int)
    requires Changed(previous, lines, first, last) && first < |lines|
    ensures 0 <= first <= last && first <= |previous| && lines[..first] == previous[..first]
    ensures |previous| != |lines| ==> Min(last, |lines| - 1) == |lines| - 1
    ensures |previous| == |lines| ==> last < |lines|
  {
  }

  /** In the state of `MarkerAboveTheScreen` the cursor stands on row 1 and is believed to be on row 0.
      The next frame changes line 1 to "X": nothing that has scrolled off changes, so the differential
      buffer is sent, and it draws the line below its row. */
  lemma NextRenderMissesItsRow(width: string -> nat)
    requires width("X") == 1
    ensures var t := Terminal(80, [Shows("a")], [Shows("b"), Blank], 0, 0);
            var previous, lines := ["a", "b"], ["a", "X"];
            && Displays(t, previous, 1) && t.Cursor() == 1
            && Changed(previous, lines, 1, 1) && !ScrolledOffChanges(View(previous, 1, 3), lines)
            && !Displays(t.Run(DiffCommands(0, previous, lines, 1, 1, width)), lines, 1)
  {
    hide Changed, ScrolledOffChanges, DiffCommands, Terminal.Run, Terminal.Step;
    TheChange(["a", "b"], ["a", "X"]);
    TheCommands(["a", "b"], ["a", "X"], width);
    TheDrawing(Terminal(80, [Shows("a")], [Shows("b"), Blank], 0, 0));
    assert Padded(["a", "X"], 3)[2] == Blank;
  }

  lemma TheChange(previous: seq<string>, lines: seq<string>)
    requires previous == ["a", "b"] && lines == ["a", "X"]
    ensures Changed(previous, lines, 1, 1) && !ScrolledOffChanges(View(previous, 1, 3), lines)
  {
    assert lines[..1] == previous[..1] && lines[2..] == previous[2..];
  }

  lemma TheCommands(previous: seq<string>, lines: seq<string>, width: string -> nat)
    requires previous == ["a", "b"] && lines == ["a", "X"] && width("X") == 1
    ensures DiffCommands(0, previous, lines, 1, 1, width) == [Down(1), CarriageReturn, EraseLine, Print("X", 1)]
  {
    assert ReachCommands(0, previous, lines, 1) == [Down(1), CarriageReturn];
    assert RowCommands(lines, 1, 0, width) == [];
    assert RowCommands(lines, 1, 1, width) == [EraseLine, Print("X", 1)];
  }

  lemma TheDrawing(t: Terminal)
    requires t == Terminal(80, [Shows("a")], [Shows("b"), Blank], 0, 0)
    ensures t.Run([Down(1), CarriageReturn, EraseLine, Print("X", 1)]).Page() == [Shows("a"), Shows("b"), Shows("X")]
  {
    hide Terminal.Run;
    var reach := [Down(1), CarriageReturn];
    assert reach + [EraseLine, Print("X", 1)] == [Down(1), CarriageReturn, EraseLine, Print("X", 1)];
    t.RunPush2(reach, EraseLine, Print("X", 1));
    var none: seq<Command> := [];
    t.RunPush2(none, Down(1), CarriageReturn);
    assert none + reach == reach;
    NothingRuns(t, none);
    assert t.Step(Down(1)).Step(CarriageReturn) == t.(row := 1);
  }

  lemma NothingRuns(t: Terminal, none: seq<Command>)
    requires t.Valid() && none == []
    ensures t.Run(none) == t
  {
  }

  /** Below the last changed row the lines are the same. */
  lemma PaintTail(previous: seq<string>, lines: seq<string>, first: nat, last: nat, length: nat)
    requires Changed(previous, lines, first, last)
    ensures forall k :: Min(last, |lines| - 1) < k < length && k >= |previous| ==> RowAt(lines, k) == RowAt(previous, k)
    ensures |previous| <= |lines| ==>
              forall k :: Min(last, |lines| - 1) < k < length ==> RowAt(lines, k) == RowAt(previous, k)
  {
    forall k | last < k < |lines| && |lines| == |previous| ensures lines[k] == previous[k] {
      assert lines[last + 1..][k - last - 1] == previous[last + 1..][k - last - 1];
    }
  }


  function Finish(raw: seq<RawLine>, normalize: string -> string): (lines: seq<string>)
    ensures |lines| == |raw| && AllNonEmpty(lines)
  {
    seq(|raw|, k requires 0 <= k < |raw| => normalize(raw[k].text) + SEGMENT_RESET)
  }

  /** The renderer's state and the terminal it writes to. */
  class Tui {
    const visibleWidth: string -> nat
    const normalize: string -> string
    var clearOnShrink: bool
    var terminal: Terminal
    var previousLines: seq<string>
    var previousWidth: int
    var previousHeight: int
    var hardwareCursorRow: nat
    var maxLinesRendered: nat
    var previousViewportTop: nat
    var stopped: bool

    function Drawn(): View
      reads this
    {
      View(previousLines, previousViewportTop, maxLinesRendered)
    }

    /** The terminal changed size since the last render, or a forced render was asked for. */
    predicate Resized()
      reads this
    {
      || (previousWidth != 0 && previousWidth != terminal.columns)
      || (previousHeight != 0 && previousHeight != terminal.Height())
    }

    /** What holds whether or not the renderer is in step: nothing is remembered before the first render. */
    predicate Sized()
      reads this
    {
      && terminal.Valid()
      && (previousWidth == 0 <==> previousHeight == 0)
      && (previousWidth == 0 ==> Drawn() == View([], 0, 0) && hardwareCursorRow == 0)
    }

    /** Unless a full clear is due, the terminal shows the remembered lines, the screen starts where
        the renderer believes and the cursor is on the row it believes. */
    predicate Valid()
      reads this
    {
      Sized() && (!Resized() ==> InStep())
    }

    predicate InStep()
      reads this
    {
      && Displays(terminal, previousLines, previousViewportTop)
      && terminal.Cursor() == hardwareCursorRow
      && Reaches(Drawn(), terminal.Height())
      && (previousLines == [] ==> terminal.column == 0 && hardwareCursorRow == 0)
    }

    /** Row for row the terminal holds the text of the frame's lines, normalised and followed by the reset of
        styles and links, and nothing else. */
    predicate PageShows(raw: seq<RawLine>)
      reads this
    {
      && |raw| <= |terminal.Page()|
      && forall k :: 0 <= k < |terminal.Page()| ==>
           terminal.Page()[k]
           == if k < |raw| then Shows(normalize(raw[k].text) + "\U{001B}[0m\U{001B}]8;;\U{0007}") else Blank
    }

    /** The hardware cursor is at the last marker of the frame that a screen's height of lines can hold. */
    predicate CursorAtMark(raw: seq<RawLine>)
      reads this
    {
      var mark := LastMark(raw, Max(0, |raw| - terminal.Height()), |raw|);
      mark.Some? ==>
        && terminal.Cursor() == Max(terminal.Top(), mark.value.row)
        && terminal.column == Min(terminal.columns - 1, mark.value.column)
    }

    /** What the finished lines on the terminal mean for the frame. */
    lemma FrameShows(raw: seq<RawLine>, top: nat)
      requires Displays(terminal, Finish(raw, normalize), top)
      requires AtMark(terminal, LastMark(raw, Max(0, |raw| - terminal.Height()), |raw|), |raw|)
      ensures PageShows(raw) && CursorAtMark(raw)
    {
      hide Displays, Finish, LastMark;
      PageOfFrame(terminal, raw, normalize, top);
      MarkIsALine(raw, terminal.Height());
    }

    constructor (terminal: Terminal, visibleWidth: string -> nat, normalize: string -> string, clearOnShrink: bool)
      requires terminal.Valid() && Clean(terminal)
      ensures Valid() && Drawn() == View([], 0, 0) && !stopped && !Resized()
      ensures this.terminal == terminal && this.visibleWidth == visibleWidth && this.normalize == normalize
    {
      this.visibleWidth, this.normalize, this.clearOnShrink := visibleWidth, normalize, clearOnShrink;
      this.terminal := terminal;
      previousLines, previousWidth, previousHeight := [], 0, 0;
      hardwareCursorRow, maxLinesRendered, previousViewportTop, stopped := 0, 0, 0, false;
      assert terminal.Page() == Padded([], terminal.Height());
    }

    /** The terminal emulator changes size and may rearrange its rows in any way. This brings a renderer
        that was out of step back to where the next render clears. */
    method Resize(t: Terminal)
      requires Sized() && t.Valid()
      requires previousWidth == 0 ==> Clean(t)
      requires previousWidth != 0 ==> previousWidth != t.columns || previousHeight != t.Height()
      modifies this`terminal
      ensures Valid() && terminal == t
    {
      terminal := t;
      if previousWidth == 0 {
        assert t.Page() == Padded([], t.Height());
      }
    }

    /** Forget what was drawn, so that the next render clears everything, in step or not. */
    method ForceRender()
      requires terminal.Valid()
      modifies this
      ensures Valid() && Resized() && Drawn() == View([], 0, 0)
      ensures terminal == old(terminal) && stopped == old(stopped) && clearOnShrink == old(clearOnShrink)
    {
      previousLines, previousWidth, previousHeight := [], -1, -1;
      hardwareCursorRow, maxLinesRendered, previousViewportTop := 0, 0, 0;
    }

    /** A full clear is asked for, by a change of size or by the clear-on-shrink setting. */
    predicate ClearDue(lines: seq<string>, overlays: bool)
      reads this
    {
      || Resized()
      || (previousLines != [] && clearOnShrink && |lines| < maxLinesRendered && !overlays)
    }

    /** Moves to the marker's row by a relative move, which stops at the top of the screen. */
    method PositionHardwareCursor(mark: Option<Mark>, totalLines: nat, ghost lines: seq<string>)
      requires terminal.Valid() && terminal.Cursor() == hardwareCursorRow
      requires totalLines == |lines| && Displays(terminal, lines, terminal.Top())
      modifies this`terminal, this`hardwareCursorRow
      ensures terminal.Valid() && terminal.columns == old(terminal.columns)
      ensures terminal.Height() == old(terminal.Height()) && terminal.Top() == old(terminal.Top())
      ensures Displays(terminal, lines, terminal.Top())
      ensures totalLines == 0 ==> terminal.column == old(terminal.column) && hardwareCursorRow == old(hardwareCursorRow)
      ensures terminal.Cursor() == hardwareCursorRow <==> MarkerVisible(mark, totalLines, terminal.Top())
      ensures AtMark(terminal, mark, totalLines)
    {
      if mark.None? || totalLines <= 0 {
        return;
      }
      var targetRow := Max(0, Min(mark.value.row, totalLines - 1));
      var targetCol := Max(0, mark.value.column);
      var rowDelta := targetRow - hardwareCursorRow;
      var buffer := Move(rowDelta);
      ghost var t := terminal;
      buffer := buffer + [Column(targetCol + 1)];
      MoveStops(t, targetRow, targetCol + 1);
      terminal := terminal.Run(buffer);
      hardwareCursorRow := targetRow;
    }

    /** Prints every line, after clearing screen and scrollback if `clear`. */
    method FullRender(clear: bool, lines: seq<string>, mark: Option<Mark>)
      requires terminal.Valid() && AllNonEmpty(lines) && Fits(lines, visibleWidth, terminal.columns)
      requires !clear ==> Clean(terminal)
      modifies this
      ensures stopped == old(stopped) && clearOnShrink == old(clearOnShrink) && Sized()
      ensures terminal.columns == old(terminal.columns) && terminal.Height() == old(terminal.Height())
      ensures Drawn() == View(lines, Max(0, |lines| - terminal.Height()),
                              if clear then |lines| else Max(old(maxLinesRendered), |lines|))
      ensures !Resized() && Displays(terminal, lines, previousViewportTop)
      ensures Valid() <==> MarkerVisible(mark, |lines|, previousViewportTop)
      ensures AtMark(terminal, mark, |lines|)
    {
      hide Terminal.Run, Terminal.Step, PrintAll;
      var height := terminal.Height();
      var buffer := FullBuffer(clear, lines, visibleWidth);
      FullBufferDisplays(terminal, clear, lines, visibleWidth);
      terminal := terminal.Run(buffer);
      hardwareCursorRow := Max(0, |lines| - 1);
      maxLinesRendered := if clear then |lines| else Max(maxLinesRendered, |lines|);
      var bufferLength := Max(height, |lines|);
      previousViewportTop := Max(0, bufferLength - height);
      PositionHardwareCursor(mark, |lines|, lines);
      previousLines, previousWidth, previousHeight := lines, terminal.columns, height;
    }

    method SetClearOnShrink(enabled: bool)
      modifies this`clearOnShrink
      ensures clearOnShrink == enabled
    {
      clearOnShrink := enabled;
    }

    /** Draws a frame. Whichever branch runs, the terminal shows the lines, and it stays in step with
        the renderer exactly when the cursor marker, if there is one, is on the screen. A frame for which
        a clear is due needs no renderer in step, and so brings one back. */
    method DoRender(raw: seq<RawLine>, overlays: bool)
      requires Sized() && (ClearDue(Finish(raw, normalize), overlays) || InStep())
      requires Fits(Finish(raw, normalize), visibleWidth, terminal.columns)
      modifies this
      ensures stopped == old(stopped) && clearOnShrink == old(clearOnShrink)
      ensures stopped ==> terminal == old(terminal) && Drawn() == old(Drawn()) && Valid() == old(Valid())
      ensures Sized()
      ensures terminal.columns == old(terminal.columns) && terminal.Height() == old(terminal.Height())
      ensures !stopped ==>
                var lines := Finish(raw, normalize);
                var mark := LastMark(raw, Max(0, |raw| - terminal.Height()), |raw|);
                && Drawn() == NextView(old(Drawn()), terminal.Height(), lines, old(ClearDue(lines, overlays)))
                && !Resized()
                && Displays(terminal, lines, previousViewportTop)
                && (Valid() <==> MarkerVisible(mark, |lines|, previousViewportTop))
      ensures !stopped ==> PageShows(raw) && CursorAtMark(raw)
    {
      hide Displays, NextView, LastMark, PageShows, CursorAtMark, AtMark, Finish, MarkerVisible, Fits;
      if stopped {
        return;
      }
      var width, height := terminal.columns, terminal.Height();
      var widthChanged := previousWidth != 0 && previousWidth != width;
      var heightChanged := previousHeight != 0 && previousHeight != height;
      var mark := ExtractCursorPosition(raw, height);
      var lines := Finish(raw, normalize);
      ClearedView(Drawn(), height, lines);
      if |previousLines| == 0 && !widthChanged && !heightChanged {
        EmptyIsClean(terminal, previousLines, previousViewportTop);
        FullRender(false, lines, mark);
        FrameShows(raw, previousViewportTop);
        return;
      }
      if widthChanged {
        FullRender(true, lines, mark);
        FrameShows(raw, previousViewportTop);
        return;
      }
      if heightChanged {
        FullRender(true, lines, mark);
        FrameShows(raw, previousViewportTop);
        return;
      }
      if clearOnShrink && |lines| < maxLinesRendered && !overlays {
        FullRender(true, lines, mark);
        FrameShows(raw, previousViewportTop);
        return;
      }
      Differential(lines, mark);
      FrameShows(raw, previousViewportTop);
    }

    /** A forced render of a frame: whatever state the renderer was in, the terminal shows the lines, from
        the row where a full redraw starts the screen, and the renderer is in step with it. */
    method ForcedRender(raw: seq<RawLine>, overlays: bool)
      requires terminal.Valid() && !stopped
      requires Fits(Finish(raw, normalize), visibleWidth, terminal.columns)
      modifies this
      ensures Valid() && !Resized()
      ensures var lines := Finish(raw, normalize);
              && Drawn() == View(lines, Max(0, |lines| - terminal.Height()), |lines|)
              && Displays(terminal, lines, previousViewportTop)
      ensures PageShows(raw) && CursorAtMark(raw)
    {
      ForceRender();
      DoRender(raw, overlays);
      FoundMarkerIsVisibleAfterFullRedraw(raw, terminal.Height());
    }

    /** The branches that compare the lines with the ones on the terminal. */
    method Differential(lines: seq<string>, mark: Option<Mark>)
      requires Valid() && !Resized() && previousLines != []
      requires AllNonEmpty(lines) && Fits(lines, visibleWidth, terminal.columns)
      modifies this
      ensures stopped == old(stopped) && clearOnShrink == old(clearOnShrink) && Sized()
      ensures terminal.columns == old(terminal.columns) && terminal.Height() == old(terminal.Height())
      ensures Drawn() == NextView(old(Drawn()), terminal.Height(), lines, false)
      ensures !Resized() && Displays(terminal, lines, previousViewportTop)
      ensures Valid() <==> MarkerVisible(mark, |lines|, previousViewportTop)
      ensures AtMark(terminal, mark, |lines|)
    {
      hide Displays, Changed, ScrolledOffChanges, MarkerVisible, Fits;
      var height, prevViewportTop := terminal.Height(), previousViewportTop;
      DisplayFits(terminal, previousLines, prevViewportTop);
      var firstChanged, lastChanged := ChangedRange(previousLines, lines);
      if firstChanged == -1 {
        Unchanged(Drawn(), height, lines);
        PositionHardwareCursor(mark, |lines|, lines);
        previousViewportTop := prevViewportTop;
        previousHeight := height;
        return;
      }
      ScrolledOffChange(Drawn(), height, lines, firstChanged, lastChanged);
      if firstChanged >= |lines| {
        if Max(0, |lines| - 1) < prevViewportTop {
          FullRender(true, lines, mark);
          return;
        }
        if |previousLines| - |lines| > height {
          // The source redraws everything here; so many rows below the new end are never on the screen.
          assert false;
        }
        DropLines(lines, mark);
        return;
      }
      if firstChanged < prevViewportTop {
        FullRender(true, lines, mark);
        return;
      }
      RedrawChanged(lines, mark, firstChanged, lastChanged);
    }

    /** Only lines at the end are gone: erase their rows. */
    method DropLines(lines: seq<string>, mark: Option<Mark>)
      requires Valid() && !Resized()
      requires |lines| < |previousLines| && lines == previousLines[..|lines|]
      requires previousViewportTop <= Max(0, |lines| - 1)
      modifies this
      ensures stopped == old(stopped) && clearOnShrink == old(clearOnShrink) && Sized()
      ensures terminal.columns == old(terminal.columns) && terminal.Height() == old(terminal.Height())
      ensures Drawn() == old(Drawn()).(lines := lines)
      ensures !Resized() && Displays(terminal, lines, previousViewportTop)
      ensures Valid() <==> MarkerVisible(mark, |lines|, previousViewportTop)
      ensures AtMark(terminal, mark, |lines|)
    {
      var buffer := ShrinkBuffer(terminal, hardwareCursorRow, previousViewportTop, previousLines, lines);
      assert terminal.Run(buffer).Top() == previousViewportTop;
      hide Displays, Terminal.Run, Terminal.Step;
      terminal := terminal.Run(buffer);
      hardwareCursorRow := Max(0, |lines| - 1);
      PositionHardwareCursor(mark, |lines|, lines);
      previousLines, previousWidth, previousHeight := lines, terminal.columns, terminal.Height();
    }

    /** Redraw the rows that changed, all of them on the screen or below it. */
    method RedrawChanged(lines: seq<string>, mark: Option<Mark>, firstChanged: nat, lastChanged: nat)
      requires Valid() && !Resized() && previousLines != []
      requires AllNonEmpty(lines) && Fits(lines, visibleWidth, terminal.columns)
      requires Changed(previousLines, lines, firstChanged, lastChanged)
      requires previousViewportTop <= firstChanged < |lines|
      modifies this
      ensures stopped == old(stopped) && clearOnShrink == old(clearOnShrink) && Sized()
      ensures terminal.columns == old(terminal.columns) && terminal.Height() == old(terminal.Height())
      ensures var top := Max(old(previousViewportTop), |lines| - terminal.Height());
              Drawn() == View(lines, top, Max(old(maxLinesRendered), |lines|))
      ensures !Resized() && Displays(terminal, lines, previousViewportTop)
      ensures Valid() <==> MarkerVisible(mark, |lines|, previousViewportTop)
      ensures AtMark(terminal, mark, |lines|)
    {
      hide Displays, Changed, MarkerVisible, Terminal.Run, Terminal.Step, DiffCommands, Fits;
      var height, prevViewportTop := terminal.Height(), previousViewportTop;
      var buffer, finalCursorRow := DiffBuffer(terminal, hardwareCursorRow, prevViewportTop, previousLines, lines,
                                               firstChanged, lastChanged, visibleWidth);
      DisplayFits(terminal.Run(buffer), lines, Max(prevViewportTop, |lines| - height));
      terminal := terminal.Run(buffer);
      hardwareCursorRow := finalCursorRow;
      maxLinesRendered := Max(maxLinesRendered, |lines|);
      previousViewportTop := Max(prevViewportTop, finalCursorRow as int - height + 1);
      PositionHardwareCursor(mark, |lines|, lines);
      previousLines, previousWidth, previousHeight := lines, terminal.columns, height;
    }
  }

  lemma FullBufferDisplays(t: Terminal, clear: bool, lines: seq<string>, width: string -> nat)
    requires t.Valid() && (!clear ==> Clean(t)) && Fits(lines, width, t.columns)
    ensures var u := t.Run((if clear then CLEAR else []) + PrintAll(lines, width));
            && Displays(u, lines, Max(0, |lines| - t.Height()))
            && u.Cursor() == Max(0, |lines| - 1)
            && (lines == [] ==> u.column == 0)
  {
    hide Terminal.Run, Terminal.Step;
    if clear {
      ClearCleans(t);
      t.RunAppend(CLEAR, PrintAll(lines, width));
      PrintAllDisplays(t.Run(CLEAR), lines, width);
    } else {
      assert [] + PrintAll(lines, width) == PrintAll(lines, width);
      PrintAllDisplays(t, lines, width);
    }
  }

  /** The branch taken redraws everything exactly when rows that have scrolled off would change. */
  lemma ScrolledOffChange(v: View, height: nat, lines: seq<string>, first: int, last: int)
    requires Reaches(v, height) && Changed(v.lines, lines, first, last)
    ensures ScrolledOffChanges(v, lines) <==>
              if first >= |lines| then Max(0, |lines| - 1) < v.top else first < v.top
    ensures first >= |lines| ==> |lines| < |v.lines| && lines == v.lines[..|lines|]
  {
    if 0 < v.top < |lines| {
      if first < v.top {
        if first < |lines| {
          assert lines[..v.top][first] != v.lines[..v.top][first];
        }
      } else {
        assert lines[..v.top] == lines[..first][..v.top];
        assert v.lines[..v.top] == v.lines[..first][..v.top];
      }
    }
  }

  lemma PageOfFrame(t: Terminal, raw: seq<RawLine>, normalize: string -> string, top: nat)
    requires Displays(t, Finish(raw, normalize), top)
    ensures |raw| <= |t.Page()|
    ensures forall k :: 0 <= k < |t.Page()| ==>
              t.Page()[k] == if k < |raw| then Shows(normalize(raw[k].text) + SEGMENT_RESET) else Blank
  {
  }

  lemma ClearedView(v: View, height: nat, lines: seq<string>)
    ensures NextView(v, height, lines, true) == View(lines, Max(0, |lines| - height), |lines|)
    ensures v.top == 0 ==>
              NextView(v, height, lines, false) == View(lines, Max(0, |lines| - height), Max(v.drawn, |lines|))
  {
  }

  lemma MarkIsALine(raw: seq<RawLine>, height: nat)
    ensures var mark := LastMark(raw, Max(0, |raw| - height), |raw|); mark.Some? ==> mark.value.row < |raw|
  {
    LastMarkIsLast(raw, Max(0, |raw| - height), |raw|);
  }

  /** When a frame is drawn by clearing: it is asked for, or a row that has scrolled off would show something
      else, or no line would be left on the screen. Otherwise the screen never moves up, and down only as far
      as the last line needs. */
  lemma NextViewIs(v: View, height: nat, lines: seq<string>, clear: bool)
    requires Reaches(v, height) && AllNonEmpty(lines) && 0 < height
    ensures var w := NextView(v, height, lines, clear);
            && w.lines == lines && |lines| <= w.top + height
            && if clear || (0 < v.top && |lines| <= v.top)
                  || (exists k :: 0 <= k < v.top && RowAt(v.lines, k) != RowAt(lines, k))
               then w.drawn == |lines| && (w.top == 0 || w.top + height == |lines|)
               else v.top <= w.top && (w.top == v.top || w.top + height == |lines|) && w.drawn == Max(v.drawn, |lines|)
  {
    if 0 < v.top < |lines| {
      if exists k :: 0 <= k < v.top && RowAt(v.lines, k) != RowAt(lines, k) {
        var k :| 0 <= k < v.top && RowAt(v.lines, k) != RowAt(lines, k);
        assert lines[..v.top][k] == lines[k] && v.lines[..v.top][k] == v.lines[k];
      } else {
        forall k | 0 <= k < v.top ensures lines[k] == v.lines[k] {
          assert RowAt(v.lines, k) == RowAt(lines, k);
        }
        assert lines[..v.top] == v.lines[..v.top];
      }
    }
  }

  /** Drawing the lines that are drawn already changes nothing. */
  lemma Unchanged(v: View, height: nat, lines: seq<string>)
    requires Reaches(v, height) && lines == v.lines
    ensures NextView(v, height, lines, false) == v
  {
  }

  /** A relative move to a row above the screen stops at its top. */
  lemma MoveStops(t: Terminal, target: nat, column: nat)
    requires t.Valid() && target < t.Top() + t.Height()
    ensures var u := t.Run(Move(target - t.Cursor()) + [Column(column)]);
            && u.scrollback == t.scrollback && u.screen == t.screen
            && u.Cursor() == Max(t.Top(), target) && u.column == Min(t.columns - 1, Max(1, column) - 1)
  {
    hide Terminal.Run, Terminal.Step, Move;
    var move := Move(target - t.Cursor());
    t.RunPush(move, Column(column));
    MoveOnly(t, target);
    ColumnOnly(t.Run(move), column);
  }

  lemma MoveOnly(t: Terminal, target: nat)
    requires t.Valid() && target < t.Top() + t.Height()
    ensures t.Run(Move(target - t.Cursor())) == t.(row := Max(0, target - t.Top()))
  {
    hide Terminal.Run;
    var move := Move(target - t.Cursor());
    NothingRuns(t, []);
    if move != [] {
      t.RunPush([], move[0]);
      assert [] + [move[0]] == move;
    }
  }

  lemma ColumnOnly(t: Terminal, column: nat)
    requires t.Valid()
    ensures t.Step(Column(column)) == t.(column := Min(t.columns - 1, Max(1, column) - 1))
  {
  }

  lemma EmptyIsClean(t: Terminal, lines: seq<string>, top: nat)
    requires t.Valid() && Displays(t, lines, top) && lines == [] && top == 0 && t.Cursor() == 0 && t.column == 0
    ensures Clean(t)
  {
    assert t.screen == t.Page();
    assert t.screen == Blanks(|t.screen|);
  }
}
