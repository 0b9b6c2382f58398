/** The terminal that the renderer drives: scrollback, screen and cursor, and the control
    functions the renderer emits (ECMA-48 sections 8.3.19 CUD, 8.3.22 CUU, 8.3.39 ED, 8.3.41 EL).
    Rows are numbered from the top of the scrollback, so a row keeps its number while it scrolls. */
module Terminals {
  import opened Text

  /** `Garbled` is a row that text was printed on without starting on an erased row at column 0. */
  datatype Row = Blank | Shows(text: string) | Garbled

  datatype Command =
    | Up(n: nat)
    | Down(n: nat)
    | Column(n: nat)
    | CarriageReturn
    | LineFeed
    | EraseLine
    | EraseScreen
    | EraseScrollback
    | Home
    | Print(text: string, width: nat)

  const NEWLINE: seq<Command> := [CarriageReturn, LineFeed]
  const CLEAR: seq<Command> := [EraseScreen, Home, EraseScrollback]

  datatype Terminal = Terminal(columns: nat, scrollback: seq<Row>, screen: seq<Row>, row: nat, column: nat) {

    predicate Valid() {
      0 < columns && row < |screen|
    }

    function Height(): nat { |screen| }

    /** Number of the first row that is on the screen. */
    function Top(): nat { |scrollback| }

    /** Number of the row the cursor is on. */
    function Cursor(): nat { |scrollback| + row }

    /** All rows, scrolled off or visible. */
    function Page(): seq<Row> { scrollback + screen }

    /** A parameter of 0 means 1, and the cursor stops at the edges of the screen. */
    function Step(c: Command): (t: Terminal)
      requires Valid()
      ensures t.Valid() && t.Height() == Height() && t.columns == columns
    {
      match c
      case Up(n) => this.(row := Max(0, row - Max(1, n)))
      case Down(n) => this.(row := Min(|screen| - 1, row + Max(1, n)))
      case Column(n) => this.(column := Min(columns - 1, Max(1, n) - 1))
      case CarriageReturn => this.(column := 0)
      case LineFeed =>
        if row + 1 < |screen| then this.(row := row + 1)
        else this.(scrollback := scrollback + [screen[0]], screen := screen[1..] + [Blank])
      case EraseLine => this.(screen := screen[row := Blank])
      case EraseScreen => this.(screen := Blanks(|screen|))
      case EraseScrollback => this.(scrollback := [])
      case Home => this.(row := 0, column := 0)
      case Print(text, width) =>
        var shown := if column == 0 && screen[row] == Blank && width <= columns then Shows(text) else Garbled;
        this.(screen := screen[row := shown], column := Min(columns - 1, column + width))
    }

    function Run(cs: seq<Command>): (t: Terminal)
      requires Valid()
      ensures t.Valid() && t.Height() == Height() && t.columns == columns
    {
      if cs == [] then this else Run(cs[..|cs| - 1]).Step(cs[|cs| - 1])
    }

    lemma RunPush(cs: seq<Command>, c: Command)
      requires Valid()
      ensures Run(cs + [c]) == Run(cs).Step(c)
    {
      assert (cs + [c])[..|cs|] == cs;
    }

    lemma RunPush2(cs: seq<Command>, c: Command, d: Command)
      requires Valid()
      ensures Run(cs + [c, d]) == Run(cs).Step(c).Step(d)
    {
      assert cs + [c, d] == (cs + [c]) + [d];
      RunPush(cs + [c], d);
      RunPush(cs, c);
    }

    lemma {:induction false} RunAppend(cs: seq<Command>, ds: seq<Command>)
      requires Valid()
      ensures Run(cs + ds) == Run(cs).Run(ds)
    {
      if ds == [] {
        assert cs + ds == cs;
      } else {
        var front, last := ds[..|ds| - 1], ds[|ds| - 1];
        assert cs + ds == (cs + front) + [last];
        RunPush(cs + front, last);
        RunAppend(cs, front);
      }
    }

    /** A vertical move whose target is on the screen lands exactly there. */
    lemma MoveTo(target: nat)
      requires Valid() && Top() <= target < Top() + Height()
      ensures var t := if target > Cursor() then Step(Down(target - Cursor()))
                       else if target < Cursor() then Step(Up(Cursor() - target)) else this;
              t == this.(row := target - Top())
    {
    }

    /** CR LF goes to the next row and scrolls, if at all, just enough to show it. */
    lemma NewlineStep()
      requires Valid()
      ensures var t := Step(CarriageReturn).Step(LineFeed);
              && t.Cursor() == Cursor() + 1 && t.column == 0
              && t.Top() == Max(Top(), Cursor() + 2 - Height())
              && t.Page() == Page() + Blanks(t.Top() - Top())
    {
      var t := Step(CarriageReturn).Step(LineFeed);
      if row + 1 == |screen| {
        assert screen == [screen[0]] + screen[1..];
        assert t.Page() == Page() + [Blank];
      } else {
        assert t.Page() == Page();
      }
    }

    lemma EraseLineStep()
      requires Valid()
      ensures var t := Step(EraseLine);
              t.Top() == Top() && t.Cursor() == Cursor() && t.column == column && t.Page() == Page()[Cursor() := Blank]
    {
    }

    lemma PrintStep(text: string, width: nat)
      requires Valid() && column == 0 && Page()[Cursor()] == Blank && width <= columns
      ensures var t := Step(Print(text, width));
              t.Top() == Top() && t.Cursor() == Cursor() && t.Page() == Page()[Cursor() := Shows(text)]
    {
    }
  }

  function Blanks(n: nat): (rows: seq<Row>)
    ensures |rows| == n && forall k :: 0 <= k < n ==> rows[k] == Blank
  {
    seq(n, _ => Blank)
  }

  function RowAt(lines: seq<string>, k: nat): Row {
    if k < |lines| then Shows(lines[k]) else Blank
  }

  /** The lines, one a row, followed by blank rows up to row `length`. */
  function Padded(lines: seq<string>, length: nat): (rows: seq<Row>)
    ensures |rows| == length && forall k :: 0 <= k < length ==> rows[k] == RowAt(lines, k)
  {
    seq(length, k requires 0 <= k < length => RowAt(lines, k))
  }

  /** Rows before `i` hold the new lines, rows from `i` on the old ones. */
  function Mixed(newer: seq<string>, elder: seq<string>, i: nat, length: nat): (rows: seq<Row>)
    ensures |rows| == length
    ensures forall k :: 0 <= k < length ==> rows[k] == if k < i then RowAt(newer, k) else RowAt(elder, k)
  {
    seq(length, k requires 0 <= k < length => if k < i then RowAt(newer, k) else RowAt(elder, k))
  }

  /** The terminal's rows are exactly `lines` padded with blank rows, the screen starting at row `top`. */
  predicate Displays(t: Terminal, lines: seq<string>, top: nat) {
    && t.Top() == top
    && |lines| <= top + t.Height()
    && t.Page() == Padded(lines, top + t.Height())
  }
}
