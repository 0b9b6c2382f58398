/** Cutting a range of columns out of a line, and when the cut keeps the styles. */
module Slices {
  import opened Ansi
  import opened StyledText
  import opened Text

  /** The graphemes, with their styles, that lie in columns `lo` to `hi` entirely, starting before `hi`. */
  function Within(line: Line, lo: int, hi: int): seq<Styled> {
    if line == [] then []
    else
      var last, front := line[|line| - 1], line[..|line| - 1];
      Within(front, lo, hi) +
      if last.Glyph? && lo <= Width(front) < hi && Width(front) + last.grapheme.width <= hi
      then [Styled(last.grapheme, After(front, PLAIN))] else []
  }

  lemma WithinPush(line: Line, item: Item, lo: int, hi: int)
    ensures Within(line + [item], lo, hi) == Within(line, lo, hi) +
            if item.Glyph? && lo <= Width(line) < hi && Width(line) + item.grapheme.width <= hi
            then [Styled(item.grapheme, After(line, PLAIN))] else []
    ensures Width(line + [item]) == Width(line) + (if item.Glyph? then item.grapheme.width else 0)
    ensures After(line + [item], PLAIN)
         == if item.Escape? then Apply(After(line, PLAIN), item.code) else After(line, PLAIN)
    ensures Read(line + [item], PLAIN) == Read(line, PLAIN) +
            if item.Glyph? then [Styled(item.grapheme, After(line, PLAIN))] else []
  {
    assert (line + [item])[..|line|] == line;
  }

  lemma EscapePush(line: Line, item: Item, lo: int, hi: int)
    requires item.Escape?
    ensures Within(line + [item], lo, hi) == Within(line, lo, hi) && Width(line + [item]) == Width(line)
    ensures After(line + [item], PLAIN) == Apply(After(line, PLAIN), item.code)
    ensures Read(line + [item], PLAIN) == Read(line, PLAIN)
  {
    WithinPush(line, item, lo, hi);
    hide Within, Read, After, Apply, Width;
    assert Within(line, lo, hi) + [] == Within(line, lo, hi);
    assert Read(line, PLAIN) + [] == Read(line, PLAIN);
  }

  lemma GlyphPush(line: Line, item: Item, lo: int, hi: int)
    requires item.Glyph?
    ensures var fits := lo <= Width(line) < hi && Width(line) + item.grapheme.width <= hi;
            && (fits ==>
                  Within(line + [item], lo, hi) == Within(line, lo, hi) + [Styled(item.grapheme, After(line, PLAIN))])
            && (!fits ==> Within(line + [item], lo, hi) == Within(line, lo, hi))
    ensures Width(line + [item]) == Width(line) + item.grapheme.width
    ensures After(line + [item], PLAIN) == After(line, PLAIN)
    ensures Read(line + [item], PLAIN) == Read(line, PLAIN) + [Styled(item.grapheme, After(line, PLAIN))]
  {
    WithinPush(line, item, lo, hi);
    hide Within, Read, After, Apply, Width;
    assert Within(line, lo, hi) + [] == Within(line, lo, hi);
  }

  /** Nothing after the last column is within. */
  lemma {:induction false} WithinStops(line: Line, i: nat, lo: int, hi: int)
    requires i <= |line| && (Width(line[..i]) >= hi || hi <= lo)
    ensures Within(line, lo, hi) == Within(line[..i], lo, hi)
    ensures Width(line) >= Width(line[..i])
  {
    if i == |line| {
      assert line[..i] == line;
    } else {
      var front := line[..|line| - 1];
      assert front[..i] == line[..i];
      WithinStops(front, i, lo, hi);
    }
  }

  lemma {:induction false} NothingWithin(line: Line, lo: int, hi: int)
    requires hi <= lo
    ensures Within(line, lo, hi) == []
  {
    if line != [] {
      NothingWithin(line[..|line| - 1], lo, hi);
    }
  }

  /** The codes before the range. */
  function Early(line: Line, lo: int): Line {
    if line == [] then []
    else
      var last, front := line[|line| - 1], line[..|line| - 1];
      Early(front, lo) + if last.Escape? && Width(front) < lo then [last] else []
  }

  /** The codes in the range before its first grapheme. */
  function Late(line: Line, lo: int, hi: int): Line {
    if line == [] then []
    else
      var last, front := line[|line| - 1], line[..|line| - 1];
      Late(front, lo, hi) +
      if last.Escape? && lo <= Width(front) < hi && Within(front, lo, hi) == [] then [last] else []
  }

  lemma EarlyPush(line: Line, item: Item, lo: int)
    ensures Early(line + [item], lo) == if item.Escape?
            && Width(line) < lo then Early(line, lo) + [item] else Early(line, lo)
  {
    assert (line + [item])[..|line|] == line;
    assert Early(line, lo) + [] == Early(line, lo);
  }

  lemma LatePush(line: Line, item: Item, lo: int, hi: int)
    ensures Late(line + [item], lo, hi)
         == if item.Escape? && lo <= Width(line) < hi && Within(line, lo, hi) == [] then Late(line, lo, hi) + [item]
            else Late(line, lo, hi)
  {
    assert (line + [item])[..|line|] == line;
    assert Late(line, lo, hi) + [] == Late(line, lo, hi);
  }

  lemma {:induction false} CodesStop(line: Line, i: nat, lo: int, hi: int)
    requires i <= |line| && Width(line[..i]) >= hi > lo
    ensures Early(line, lo) == Early(line[..i], lo) && Late(line, lo, hi) == Late(line[..i], lo, hi)
  {
    if i == |line| {
      assert line[..i] == line;
    } else {
      var front := line[..|line| - 1];
      assert front[..i] == line[..i] && line == front + [line[|line| - 1]];
      CodesStop(front, i, lo, hi);
      WithinStops(front, i, lo, hi);
      EarlyPush(front, line[|line| - 1], lo);
      LatePush(front, line[|line| - 1], lo, hi);
    }
  }

  /** The style of the first grapheme of the range, in the line. */
  function LineStyle(line: Line, lo: int, hi: int): Style {
    After(Early(line, lo) + Late(line, lo, hi), PLAIN)
  }

  /** The style it has in the cut, which puts the codes in the range before the ones that came before it. */
  function CutStyle(line: Line, lo: int, hi: int): Style {
    After(Late(line, lo, hi) + Early(line, lo), PLAIN)
  }

  predicate OrderIsHarmless(line: Line, lo: int, hi: int) {
    Within(line, lo, hi) == [] || CutStyle(line, lo, hi) == LineStyle(line, lo, hi)
  }

  /** No grapheme of the range has been reached: codes are collected, those before the range apart. */
  ghost predicate Collecting(done: Line, lo: int, hi: int, text: Line, pending: Line) {
    && text == Late(done, lo, hi) && pending == Early(done, lo)
    && Within(done, lo, hi) == []
    && Read(text, PLAIN) == [] && Width(text) == 0
    && After(done, PLAIN) == After(pending + text, PLAIN)
    && Read(text + pending, PLAIN) == [] && Width(text + pending) == 0
    && (Width(done) < lo ==> text == [])
  }

  /** Graphemes of the range have been reached. */
  ghost predicate Cutting(done: Line, lo: int, hi: int, text: Line) {
    && lo <= Width(done) && Within(done, lo, hi) != []
    && FirstIsCut(done, lo, hi, text)
    && (OrderIsHarmless(done, lo, hi) ==>
          Read(text, PLAIN) == Within(done, lo, hi) && After(text, PLAIN) == After(done, PLAIN))
  }

  /** The first grapheme of the range, in the line and in the cut. */
  ghost predicate FirstIsCut(line: Line, lo: int, hi: int, text: Line) {
    && Within(line, lo, hi) != [] && Within(line, lo, hi)[0].style == LineStyle(line, lo, hi)
    && Read(text, PLAIN) != []
    && Read(text, PLAIN)[0] == Styled(Within(line, lo, hi)[0].grapheme, CutStyle(line, lo, hi))
  }

  lemma CodesRead(line: Line, item: Item)
    requires item.Escape? && Read(line, PLAIN) == [] && Width(line) == 0
    ensures Read(line + [item], PLAIN) == [] && Width(line + [item]) == 0
  {
    EscapePush(line, item, 0, 0);
  }

  lemma {:induction false} OnlyCodes(a: Line, b: Line)
    requires Read(a, PLAIN) == [] && Width(a) == 0 && AllEscapes(b)
    ensures Read(a + b, PLAIN) == [] && Width(a + b) == 0
  {
    if b == [] {
      assert a + b == a;
    } else {
      var front, item := b[..|b| - 1], b[|b| - 1];
      OnlyCodes(a, front);
      assert a + b == (a + front) + [item];
      CodesRead(a + front, item);
    }
  }

  lemma {:induction false} EarlyCodes(line: Line, lo: int, hi: int)
    ensures AllEscapes(Early(line, lo)) && AllEscapes(Late(line, lo, hi))
  {
    if line != [] {
      EarlyCodes(line[..|line| - 1], lo, hi);
    }
  }

  lemma CollectCode(done: Line, lo: int, hi: int, text: Line, pending: Line, item: Item)
    requires Collecting(done, lo, hi, text, pending) && item.Escape? && lo < hi && Width(done) < hi
    ensures if Width(done) >= lo then Collecting(done + [item], lo, hi, text + [item], pending)
            else Collecting(done + [item], lo, hi, text, pending + [item])
  {
    hide Within, Read, After, Width, Apply, Early, Late;
    EarlyPush(done, item, lo);
    LatePush(done, item, lo, hi);
    EscapePush(done, item, lo, hi);
    EarlyCodes(done + [item], lo, hi);
    EscapePush(pending + text, item, 0, 0);
    assert (pending + text) + [item] == pending + (text + [item]);
    CodesRead(text, item);
    if Width(done) >= lo {
      OnlyCodes(text + [item], pending);
    } else {
      assert pending + text == pending && (pending + [item]) + text == pending + [item];
      OnlyCodes(text, pending + [item]);
    }
  }

  lemma CollectSkip(done: Line, lo: int, hi: int, text: Line, pending: Line, item: Item)
    requires Collecting(done, lo, hi, text, pending) && item.Glyph?
    requires !(lo <= Width(done) < hi && Width(done) + item.grapheme.width <= hi)
    ensures Collecting(done + [item], lo, hi, text, pending)
  {
    hide Within, Read, After, Width, Early, Late;
    EarlyPush(done, item, lo);
    LatePush(done, item, lo, hi);
    GlyphPush(done, item, lo, hi);
  }

  lemma FirstGlyph(done: Line, lo: int, hi: int, text: Line, pending: Line, item: Item)
    requires Collecting(done, lo, hi, text, pending) && item.Glyph?
    requires lo <= Width(done) < hi && Width(done) + item.grapheme.width <= hi
    ensures Cutting(done + [item], lo, hi, text + pending + [item])
    ensures Width(text + pending + [item]) == item.grapheme.width
  {
    hide Within, Read, After, Width, Early, Late;
    EarlyPush(done, item, lo);
    LatePush(done, item, lo, hi);
    GlyphPush(done, item, lo, hi);
    GlyphPush(text + pending, item, 0, 0);
    assert [] + [Styled(item.grapheme, After(done, PLAIN))] == [Styled(item.grapheme, After(done, PLAIN))];
    assert [] + [Styled(item.grapheme, After(text + pending, PLAIN))]
           == [Styled(item.grapheme, After(text + pending, PLAIN))];
  }

  lemma SameOrder(done: Line, item: Item, lo: int, hi: int)
    requires lo <= Width(done) && Within(done, lo, hi) != []
    ensures Within(done + [item], lo, hi) != [] && Within(done + [item], lo, hi)[0] == Within(done, lo, hi)[0]
    ensures LineStyle(done + [item], lo, hi) == LineStyle(done, lo, hi)
    ensures CutStyle(done + [item], lo, hi) == CutStyle(done, lo, hi)
    ensures OrderIsHarmless(done + [item], lo, hi) == OrderIsHarmless(done, lo, hi)
    ensures lo <= Width(done + [item])
  {
    hide Read, After, Early, Late;
    EarlyPush(done, item, lo);
    LatePush(done, item, lo, hi);
    WithinPush(done, item, lo, hi);
  }

  lemma CutCode(done: Line, lo: int, hi: int, text: Line, item: Item)
    requires Cutting(done, lo, hi, text) && item.Escape?
    ensures Cutting(done + [item], lo, hi, text + [item]) && Width(text + [item]) == Width(text)
  {
    hide Within, Read, After, Width, Apply, OrderIsHarmless, LineStyle, CutStyle;
    SameOrder(done, item, lo, hi);
    EscapePush(done, item, lo, hi);
    EscapePush(text, item, lo, hi);
  }

  lemma CutGlyph(done: Line, lo: int, hi: int, text: Line, item: Item)
    requires Cutting(done, lo, hi, text) && item.Glyph?
    requires Width(done) < hi && Width(done) + item.grapheme.width <= hi
    ensures Cutting(done + [item], lo, hi, text + [item]) && Width(text + [item]) == Width(text) + item.grapheme.width
  {
    hide Within, Read, After, Width, OrderIsHarmless, LineStyle, CutStyle;
    SameOrder(done, item, lo, hi);
    GlyphPush(done, item, lo, hi);
    GlyphPush(text, item, lo, hi);
  }

  lemma CutSkip(done: Line, lo: int, hi: int, text: Line, item: Item)
    requires Cutting(done, lo, hi, text) && item.Glyph?
    requires !(Width(done) < hi && Width(done) + item.grapheme.width <= hi)
    ensures Cutting(done + [item], lo, hi, text)
  {
    hide Within, Read, After, Width, OrderIsHarmless, LineStyle, CutStyle;
    SameOrder(done, item, lo, hi);
    GlyphPush(done, item, lo, hi);
  }

  /** What the cut has found so far. */
  ghost predicate Sliced(done: Line, lo: int, hi: int, text: Line, pending: Line, started: bool) {
    if started then Cutting(done, lo, hi, text) && pending == [] else Collecting(done, lo, hi, text, pending)
  }

  lemma SlicedAll(line: Line, i: nat, lo: int, hi: int, text: Line, pending: Line, started: bool)
    requires i <= |line| && lo < hi && Sliced(line[..i], lo, hi, text, pending, started)
    requires i < |line| ==> Width(line[..i]) >= hi
    ensures Read(text, PLAIN) == Within(line, lo, hi) <==> OrderIsHarmless(line, lo, hi)
    ensures Within(line, lo, hi) != [] ==> FirstIsCut(line, lo, hi, text)
  {
    hide Within, Read, After, Width, Early, Late;
    if i < |line| {
      WithinStops(line, i, lo, hi);
      CodesStop(line, i, lo, hi);
    } else {
      assert line[..i] == line;
    }
  }

  lemma SlicedNothing(lo: nat, hi: int)
    ensures Sliced([], lo, hi, [], [], false) && Width([]) == 0
  {
    var none: Line := [];
    assert none + none == none;
  }

  /** One item of the line. */
  method SliceItem(ghost done: Line, item: Item, lo: nat, hi: nat, currentCol: nat, text: Line, pendingAnsi: Line,
                   ghost started: bool)
    returns (newText: Line, newPending: Line, ghost newStarted: bool)
    requires lo < hi && currentCol == Width(done) < hi && Sliced(done, lo, hi, text, pendingAnsi, started)
    ensures Sliced(done + [item], lo, hi, newText, newPending, newStarted)
    ensures Width(done + [item]) == currentCol + (if item.Glyph? then item.grapheme.width else 0)
    ensures Width(newText) == Width(text) +
            if item.Glyph? && lo <= currentCol && currentCol + item.grapheme.width <= hi then item.grapheme.width else 0
  {
    hide Within, Read, After, Width, Apply, Early, Late, Collecting, Cutting;
    newText, newPending, newStarted := text, pendingAnsi, started;
    if item.Escape? {
      EscapePush(done, item, lo, hi);
      if started { CutBound(done, lo, hi, text); CutCode(done, lo, hi, text, item); } else {
        CollectCode(done, lo, hi, text, pendingAnsi, item);
        EscapePush(text, item, lo, hi);
      }
      if currentCol >= lo {
        newText := text + [item];
      } else {
        newPending := pendingAnsi + [item];
      }
    } else {
      var w := item.grapheme.width;
      GlyphPush(done, item, lo, hi);
      if currentCol >= lo && currentCol + w <= hi {
        newText, newPending, newStarted := text + pendingAnsi + [item], [], true;
        if started {
          assert text + pendingAnsi == text;
          CutGlyph(done, lo, hi, text, item);
        } else {
          FirstGlyph(done, lo, hi, text, pendingAnsi, item);
          NoWidth(done, lo, hi, text, pendingAnsi);
        }
      } else if started {
        CutBound(done, lo, hi, text);
        CutSkip(done, lo, hi, text, item);
      } else {
        CollectSkip(done, lo, hi, text, pendingAnsi, item);
      }
    }
  }

  lemma CutBound(done: Line, lo: int, hi: int, text: Line)
    requires Cutting(done, lo, hi, text)
    ensures lo <= Width(done)
  {
  }

  lemma NoWidth(done: Line, lo: int, hi: int, text: Line, pending: Line)
    requires Collecting(done, lo, hi, text, pending)
    ensures Width(text) == 0
  {
  }

  lemma NothingToCut(line: Line, lo: int, hi: int)
    requires hi <= lo
    ensures Within(line, lo, hi) == [] && OrderIsHarmless(line, lo, hi) && Read([], PLAIN) == [] && Width([]) == 0
  {
    NothingWithin(line, lo, hi);
  }

  /** A range of columns, and its width; a grapheme that sticks out of it is left out. The graphemes have
      the styles they had exactly if the order of the first codes makes no difference. */
  method SliceWithWidth(line: Line, startCol: nat, length: int) returns (text: Line, width: nat)
    ensures Width(text) == width && width <= Max(0, length)
    ensures Read(text, PLAIN) == Within(line, startCol, startCol + length)
            <==> OrderIsHarmless(line, startCol, startCol + length)
    ensures Within(line, startCol, startCol + length) != [] ==> FirstIsCut(line, startCol, startCol + length, text)
  {
    hide Within, Read, After, Width, OrderIsHarmless, FirstIsCut, Sliced;
    if length <= 0 {
      NothingToCut(line, startCol, startCol + length);
      return [], 0;
    }
    var endCol := startCol + length;
    text, width := [], 0;
    ghost var started := false;
    var currentCol, i, pendingAnsi: Line := 0, 0, [];
    assert line[..0] == [];
    SlicedNothing(startCol, endCol);
    while i < |line|
      invariant 0 <= i <= |line|
      invariant currentCol == Width(line[..i]) && currentCol < endCol
      invariant Width(text) == width <= Max(0, currentCol - startCol)
      invariant Sliced(line[..i], startCol, endCol, text, pendingAnsi, started)
    {
      assert line[..i + 1] == line[..i] + [line[i]];
      text, pendingAnsi, started := SliceItem(line[..i], line[i], startCol, endCol, currentCol, text, pendingAnsi,
          started);
      i := i + 1;
      if line[i - 1].Glyph? {
        var w := line[i - 1].grapheme.width;
        if currentCol >= startCol && currentCol + w <= endCol {
          width := width + w;
        }
        currentCol := currentCol + w;
        if currentCol >= endCol {
          SlicedAll(line, i, startCol, endCol, text, pendingAnsi, started);
          return;
        }
      }
    }
    SlicedAll(line, i, startCol, endCol, text, pendingAnsi, started);
  }

  /** A cut from the start of a line has no codes before it, so it keeps every style. */
  lemma {:induction false} NothingEarly(line: Line, hi: int)
    ensures Early(line, 0) == [] && OrderIsHarmless(line, 0, hi)
  {
    if line != [] {
      NothingEarly(line[..|line| - 1], hi);
    }
    assert Late(line, 0, hi) + [] == Late(line, 0, hi) == [] + Late(line, 0, hi);
  }

  lemma OneParameter(digit: char)
    requires digit == '1' || digit == '2'
    ensures var p := ['3', digit];
            Digits(p) && ParamChars(p) && SplitOn(p, ';') == [p] && Value(p) == 30 + (digit as int - '0' as int)
  {
    var p := ['3', digit];
    assert p[1..] == [digit] && [digit][1..] == "";
    assert SplitOn([digit], ';') == [[digit]] by { assert [digit] + "" == [digit]; }
    assert SplitOn(p, ';') == [p] by { assert ['3'] + [digit] == p; }
    assert p[..1] == ['3'] && ['3'][..0] == "";
    assert Decimal(['3']) == 3;
  }

  lemma Recolors(s: Style, digit: char)
    requires digit == '1' || digit == '2'
    ensures Apply(s, Sgr(['3', digit])).fg == Some(Numeral(30 + (digit as int - '0' as int)))
  {
    hide SplitOn, Decimal, Value, Numeral, ParamChars, SetFlag;
    var p := ['3', digit];
    OneParameter(digit);
    PartsAreDigits(p);
    assert p != "" && p != "0";
    assert ColorLength([p]) == 0 && [p][1..] == [];
    assert ApplyParams(s, [p]) == ApplyParams(SetAttribute(s, Value(p)), []);
  }

  /** Red "A", green "B", cut after the "A": the "B" comes out red. */
  method CutShowsWrongColor() returns (line: Line, text: Line)
    ensures var a, b := Grapheme("A", 1, false, false), Grapheme("B", 1, false, false);
            && line == [Escape(Sgr("31")), Glyph(a), Escape(Sgr("32")), Glyph(b)]
            && Within(line, 1, 2) != [] && Read(text, PLAIN) != []
            && Read(text, PLAIN)[0].grapheme == Within(line, 1, 2)[0].grapheme
            && Within(line, 1, 2)[0].style.fg == Some(Numeral(32)) && Read(text, PLAIN)[0].style.fg == Some(Numeral(31))
  {
    hide Apply, Numeral, Early, Late, Within, After, Read, OrderIsHarmless;
    var red, green := Escape(Sgr("31")), Escape(Sgr("32"));
    var a, b := Glyph(Grapheme("A", 1, false, false)), Glyph(Grapheme("B", 1, false, false));
    line := [red, a, green, b];
    Colored([], red, a, green, b);
    TwoColors();
    var width;
    text, width := SliceWithWidth(line, 1, 1);
  }

  /** Reading both codes, the last one wins. */
  lemma TwoColors()
    ensures After([Escape(Sgr("31"))] + [Escape(Sgr("32"))], PLAIN).fg == Some(Numeral(32))
    ensures After([Escape(Sgr("32"))] + [Escape(Sgr("31"))], PLAIN).fg == Some(Numeral(31))
  {
    hide Apply, Numeral, After;
    Recolored('1', '2');
    Recolored('2', '1');
    assert "31" == ['3', '1'] && "32" == ['3', '2'];
  }

  lemma Recolored(a: char, b: char)
    requires (a == '1' || a == '2') && (b == '1' || b == '2')
    ensures After([Escape(Sgr(['3', a]))] + [Escape(Sgr(['3', b]))], PLAIN).fg
            == Some(Numeral(30 + (b as int - '0' as int)))
  {
    hide Apply, Numeral;
    var x, y := [Escape(Sgr(['3', a]))], Escape(Sgr(['3', b]));
    assert (x + [y])[..1] == x;
    Recolors(After(x, PLAIN), b);
  }

  lemma Colored(none: Line, red: Item, a: Item, green: Item, b: Item)
    requires none == [] && red.Escape? && green.Escape? && a.Glyph? && b.Glyph?
             && a.grapheme.width == b.grapheme.width == 1
    ensures var line := [red, a, green, b];
            Early(line, 1) == [red] && Late(line, 1, 2) == [green] && Within(line, 1, 2) != []
  {
    hide Early, Late, Within, Width, After, Read;
    SlicedNothing(1, 2);
    assert none + [red] == [red] && [red] + [a] == [red, a] && [red, a] + [green] == [red, a, green];
    assert [red, a, green] + [b] == [red, a, green, b];
    NoCodesIn(none);
    EarlyPush(none, red, 1); LatePush(none, red, 1, 2); EscapePush(none, red, 1, 2);
    EarlyPush([red], a, 1); LatePush([red], a, 1, 2); GlyphPush([red], a, 1, 2);
    EarlyPush([red, a], green, 1); LatePush([red, a], green, 1, 2); EscapePush([red, a], green, 1, 2);
    EarlyPush([red, a, green], b, 1); LatePush([red, a, green], b, 1, 2); GlyphPush([red, a, green], b, 1, 2);
  }

  lemma NoCodesIn(none: Line)
    requires none == []
    ensures Early(none, 1) == [] && Late(none, 1, 2) == [] && Within(none, 1, 2) == [] && Width(none) == 0
  {
  }
}
