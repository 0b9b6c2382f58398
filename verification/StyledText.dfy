/** Text with codes in it, and its meaning: its graphemes, each with the style in force. */
module StyledText {
  import opened Ansi

  datatype Grapheme = Grapheme(text: string, width: nat, whitespace: bool, cjk: bool) {
    predicate PlainSpace() { text == " " }
    predicate Blank() { whitespace || text == " " }
  }

  datatype Item = Escape(code: Code) | Glyph(grapheme: Grapheme)

  type Line = seq<Item>

  const SPACE := Glyph(Grapheme(" ", 1, true, false))

  predicate AllEscapes(line: Line) {
    forall k :: 0 <= k < |line| ==> line[k].Escape?
  }

  datatype Styled = Styled(grapheme: Grapheme, style: Style)

  /** The style in force after the line. */
  function After(line: Line, s: Style): Style {
    if line == [] then s
    else
      var last, before := line[|line| - 1], After(line[..|line| - 1], s);
      if last.Escape? then Apply(before, last.code) else before
  }

  /** The graphemes of the line with their styles. */
  function Read(line: Line, s: Style): seq<Styled> {
    if line == [] then []
    else
      var last, front := line[|line| - 1], line[..|line| - 1];
      if last.Escape? then Read(front, s) else Read(front, s) + [Styled(last.grapheme, After(front, s))]
  }

  function Width(line: Line): nat {
    if line == [] then 0
    else
      var last := line[|line| - 1];
      Width(line[..|line| - 1]) + (if last.Escape? then 0 else last.grapheme.width)
  }

  function Codes(codes: seq<Code>): (line: Line)
    ensures |line| == |codes| && forall k :: 0 <= k < |codes| ==> line[k] == Escape(codes[k])
  {
    seq(|codes|, k requires 0 <= k < |codes| => Escape(codes[k]))
  }

  function Concat(lines: seq<Line>): Line {
    if lines == [] then [] else Concat(lines[..|lines| - 1]) + lines[|lines| - 1]
  }

  /** Every line is read from the plain style. */
  function ReadEach(lines: seq<Line>): seq<Styled> {
    if lines == [] then [] else ReadEach(lines[..|lines| - 1]) + Read(lines[|lines| - 1], PLAIN)
  }

  /** `kept` is `full` with some blank graphemes left out, everything else the same and in order. */
  predicate Dropped(full: seq<Styled>, kept: seq<Styled>) {
    if full == [] then kept == []
    else
      || (kept != [] && full[0] == kept[0] && Dropped(full[1..], kept[1..]))
      || (full[0].grapheme.Blank() && Dropped(full[1..], kept))
  }

  function Ink(cells: seq<Styled>): seq<Styled> {
    if cells == [] then []
    else if cells[0].grapheme.Blank() then Ink(cells[1..])
    else [cells[0]] + Ink(cells[1..])
  }

  lemma {:induction false} DroppedKeepsInk(full: seq<Styled>, kept: seq<Styled>)
    requires Dropped(full, kept)
    ensures Ink(full) == Ink(kept) && |kept| <= |full|
    decreases |full|
  {
    if full != [] {
      if kept != [] && full[0] == kept[0] && Dropped(full[1..], kept[1..]) {
        DroppedKeepsInk(full[1..], kept[1..]);
      } else {
        DroppedKeepsInk(full[1..], kept);
      }
    }
  }

  lemma {:induction false} DroppedSame(cells: seq<Styled>)
    ensures Dropped(cells, cells)
  {
    if cells != [] {
      DroppedSame(cells[1..]);
    }
  }

  lemma {:induction false} DroppedBlanks(cells: seq<Styled>)
    requires forall k :: 0 <= k < |cells| ==> cells[k].grapheme.Blank()
    ensures Dropped(cells, [])
  {
    if cells != [] {
      DroppedBlanks(cells[1..]);
    }
  }

  lemma {:induction false} DroppedAppend(a: seq<Styled>, b: seq<Styled>, c: seq<Styled>, d: seq<Styled>)
    requires Dropped(a, b) && Dropped(c, d)
    ensures Dropped(a + c, b + d)
    decreases |a|
  {
    if a == [] {
      assert a + c == c && b + d == d;
    } else {
      assert (a + c)[1..] == a[1..] + c;
      if b != [] && a[0] == b[0] && Dropped(a[1..], b[1..]) {
        assert (b + d)[1..] == b[1..] + d;
        DroppedAppend(a[1..], b[1..], c, d);
      } else {
        DroppedAppend(a[1..], b, c, d);
      }
    }
  }

  lemma {:induction false} DroppedTransitive(a: seq<Styled>, b: seq<Styled>, c: seq<Styled>)
    requires Dropped(a, b) && Dropped(b, c)
    ensures Dropped(a, c)
    decreases |a|
  {
    if a != [] {
      if b != [] && a[0] == b[0] && Dropped(a[1..], b[1..]) {
        if c != [] && b[0] == c[0] && Dropped(b[1..], c[1..]) {
          DroppedTransitive(a[1..], b[1..], c[1..]);
        } else {
          DroppedTransitive(a[1..], b[1..], c);
        }
      } else {
        DroppedTransitive(a[1..], b, c);
      }
    }
  }

  lemma {:induction false} Appended(a: Line, b: Line, s: Style)
    ensures After(a + b, s) == After(b, After(a, s))
    ensures Read(a + b, s) == Read(a, s) + Read(b, After(a, s))
    ensures Width(a + b) == Width(a) + Width(b)
  {
    if b == [] {
      assert a + b == a;
    } else {
      assert (a + b)[..|a + b| - 1] == a + b[..|b| - 1];
      Appended(a, b[..|b| - 1], s);
    }
  }

  lemma {:induction false} CodesOnly(codes: seq<Code>, s: Style)
    ensures Read(Codes(codes), s) == [] && Width(Codes(codes)) == 0
    ensures After(Codes(codes), PLAIN) == ApplyAll(PLAIN, codes)
  {
    if codes != [] {
      CodesOnly(codes[..|codes| - 1], s);
      assert Codes(codes)[..|codes| - 1] == Codes(codes[..|codes| - 1]);
    }
  }

  /** A line that starts with the codes for a style is read in that style. */
  lemma Restored(s: Style, line: Line)
    requires Proper(s)
    ensures var whole := Codes(ActiveCodes(s)) + line;
            && Read(whole, PLAIN) == Read(line, s) && After(whole, PLAIN) == After(line, s)
            && Width(whole) == Width(line)
  {
    var codes := ActiveCodes(s);
    CodesOnly(codes, PLAIN);
    RoundTrip(s);
    Appended(Codes(codes), line, PLAIN);
    assert [] + Read(line, s) == Read(line, s);
  }

  /** Codes at the end of a line do not show. */
  lemma ClosedOff(line: Line, codes: seq<Code>)
    ensures Read(line + Codes(codes), PLAIN) == Read(line, PLAIN) && Width(line + Codes(codes)) == Width(line)
  {
    Appended(line, Codes(codes), PLAIN);
    CodesOnly(codes, After(line, PLAIN));
  }

  lemma {:induction false} AfterIsProper(line: Line, s: Style)
    requires Proper(s)
    ensures Proper(After(line, s))
  {
    hide Proper;
    if line != [] {
      AfterIsProper(line[..|line| - 1], s);
      if line[|line| - 1].Escape? {
        ApplyKeepsProper(After(line[..|line| - 1], s), line[|line| - 1].code);
      }
    }
  }

  // Trimming.

  predicate BlankItem(item: Item) {
    item.Glyph? && item.grapheme.Blank()
  }

  predicate AllBlank(line: Line) {
    forall k :: 0 <= k < |line| ==> BlankItem(line[k])
  }

  function TrimEnd(line: Line): Line {
    if line != [] && BlankItem(line[|line| - 1]) then TrimEnd(line[..|line| - 1]) else line
  }

  lemma {:induction false} TrimDropsBlanks(line: Line, s: Style)
    ensures Dropped(Read(line, s), Read(TrimEnd(line), s))
    ensures Width(TrimEnd(line)) <= Width(line)
    ensures AllBlank(line) ==> TrimEnd(line) == []
    ensures TrimEnd(line) <= line && (TrimEnd(line) != [] ==> !BlankItem(TrimEnd(line)[|TrimEnd(line)| - 1]))
  {
    if line != [] && BlankItem(line[|line| - 1]) {
      var front := line[..|line| - 1];
      TrimDropsBlanks(front, s);
      var last := [Styled(line[|line| - 1].grapheme, After(front, s))];
      DroppedBlanks(last);
      DroppedAppend(Read(front, s), Read(TrimEnd(front), s), last, []);
      assert Read(TrimEnd(front), s) + [] == Read(TrimEnd(front), s);
    } else {
      DroppedSame(Read(line, s));
    }
  }

  lemma {:induction false} BlankReads(line: Line, s: Style)
    requires AllBlank(line)
    ensures After(line, s) == s && forall k :: 0 <= k < |Read(line, s)| ==> Read(line, s)[k].grapheme.Blank()
  {
    if line != [] {
      BlankReads(line[..|line| - 1], s);
    }
  }
}
