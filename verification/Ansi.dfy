/** Text styles: the SGR attributes (ECMA-48 section 8.3.117) and OSC 8 hyperlinks that are in force,
    how a code changes them, and codes that restore them. */
module Ansi {
  import opened Text

  datatype Terminator = Bel | StringTerminator

  /** A code taken from the text: `ESC [ params m`, `ESC ] 8 ; body terminator`, or another one. */
  datatype Code = Sgr(params: string) | Osc8(body: string, terminator: Terminator) | Other(text: string)

  datatype Hyperlink = Hyperlink(params: string, url: string, terminator: Terminator)

  datatype Flags = Flags(bold: bool, dim: bool, italic: bool, underline: bool, blink: bool, inverse: bool,
                         hidden: bool, strikethrough: bool)

  datatype Style = Style(flags: Flags, fg: Option<string>, bg: Option<string>, link: Option<Hyperlink>)

  const NO_FLAGS := Flags(false, false, false, false, false, false, false, false)
  const PLAIN := Style(NO_FLAGS, None, None, None)

  /** An SGR reset does not end a hyperlink. */
  function Reset(s: Style): Style {
    PLAIN.(link := s.link)
  }

  predicate ParamChars(s: string) {
    forall k :: 0 <= k < |s| ==> '0' <= s[k] <= '9' || s[k] == ';'
  }

  /** An empty parameter is no number. */
  function Value(part: string): (v: int)
    requires Digits(part)
  {
    if part == "" then -1 else Decimal(part)
  }

  function Digit(n: nat): char
    requires n < 10
  {
    ('0' as int + n) as char
  }

  lemma PushDigit(front: string, d: nat)
    requires Digits(front) && d < 10
    ensures Digits(front + [Digit(d)]) && Decimal(front + [Digit(d)]) == Decimal(front) * 10 + d
  {
    assert (front + [Digit(d)])[..|front|] == front;
  }

  function Numeral(n: nat): (s: string)
    ensures Digits(s) && s != "" && Decimal(s) == n
  {
    if n < 10 then
      PushDigit("", n);
      "" + [Digit(n)]
    else
      PushDigit(Numeral(n / 10), n % 10);
      Numeral(n / 10) + [Digit(n % 10)]
  }

  predicate StandardForeground(code: int) { 30 <= code <= 37 || 90 <= code <= 97 }
  predicate StandardBackground(code: int) { 40 <= code <= 47 || 100 <= code <= 107 }

  function SetFlag(f: Flags, code: int): Flags {
    match code
    case 1 => f.(bold := true)
    case 2 => f.(dim := true)
    case 3 => f.(italic := true)
    case 4 => f.(underline := true)
    case 5 => f.(blink := true)
    case 7 => f.(inverse := true)
    case 8 => f.(hidden := true)
    case 9 => f.(strikethrough := true)
    case 21 => f.(bold := false)
    case 22 => f.(bold := false, dim := false)
    case 23 => f.(italic := false)
    case 24 => f.(underline := false)
    case 25 => f.(blink := false)
    case 27 => f.(inverse := false)
    case 28 => f.(hidden := false)
    case 29 => f.(strikethrough := false)
    case _ => f
  }

  /** One attribute code that takes no further parameters. */
  function SetAttribute(s: Style, code: int): Style {
    if code == 0 then Reset(s)
    else if code == 39 then s.(fg := None)
    else if code == 49 then s.(bg := None)
    else if StandardForeground(code) then s.(fg := Some(Numeral(code)))
    else if StandardBackground(code) then s.(bg := Some(Numeral(code)))
    else s.(flags := SetFlag(s.flags, code))
  }

  predicate AllDigits(parts: seq<string>) {
    forall k :: 0 <= k < |parts| ==> Digits(parts[k])
  }

  /** Number of parameters an extended colour takes: 3 for a palette colour, 5 for RGB, else 0. */
  function ColorLength(parts: seq<string>): (n: nat)
    requires AllDigits(parts) && parts != []
    ensures n <= |parts| && (n == 0 || n == 3 || n == 5)
  {
    if Value(parts[0]) != 38 && Value(parts[0]) != 48 then 0
    else if 2 < |parts| && parts[1] == "5" then 3
    else if 4 < |parts| && parts[1] == "2" then 5
    else 0
  }

  function SetColor(s: Style, code: int, color: string): Style {
    if code == 38 then s.(fg := Some(color)) else s.(bg := Some(color))
  }

  function Join(parts: seq<string>): string {
    if parts == [] then "" else if |parts| == 1 then parts[0] else Join(parts[..|parts| - 1]) + ";" + parts[|parts| - 1]
  }

  function ApplyParams(s: Style, parts: seq<string>): Style
    requires AllDigits(parts)
    decreases |parts|
  {
    if parts == [] then s
    else
      var n := ColorLength(parts);
      if n > 0 then ApplyParams(SetColor(s, Value(parts[0]), Join(parts[..n])), parts[n..])
      else ApplyParams(SetAttribute(s, Value(parts[0])), parts[1..])
  }

  /** A link code: no effect without a second separator, and an empty URL closes the link. */
  function ParseOsc8(body: string, terminator: Terminator): Option<Option<Hyperlink>> {
    match IndexOf(body, ";")
    case None => None
    case Some(separator) =>
      var url := body[separator + 1..];
      Some(if url == "" then None else Some(Hyperlink(body[..separator], url, terminator)))
  }

  function Apply(s: Style, code: Code): Style {
    match code
    case Osc8(body, terminator) =>
      (match ParseOsc8(body, terminator)
       case Some(link) => s.(link := link)
       case None => s)
    case Sgr(params) =>
      if !ParamChars(params) then s
      else if params == "" || params == "0" then Reset(s)
      else
        PartsAreDigits(params);
        ApplyParams(s, SplitOn(params, ';'))
    case Other(_) => s
  }

  function ApplyAll(s: Style, codes: seq<Code>): Style {
    if codes == [] then s else Apply(ApplyAll(s, codes[..|codes| - 1]), codes[|codes| - 1])
  }

  lemma {:induction false} PartsAreDigits(params: string)
    requires ParamChars(params)
    ensures AllDigits(SplitOn(params, ';'))
  {
    if params != "" {
      assert ParamChars(params[1..]);
      PartsAreDigits(params[1..]);
    }
  }

  function Flag(on: bool, code: string): seq<string> {
    if on then [code] else []
  }

  /** What the active attributes are written as: one parameter list, colours last. */
  function ActiveParams(s: Style): seq<string> {
    ActiveFlags(s.flags) + ((if s.fg.Some? then [s.fg.value] else []) + (if s.bg.Some? then [s.bg.value] else []))
  }

  function ActiveFlags(f: Flags): seq<string> {
    Flag(f.bold, "1") + Flag(f.dim, "2") + Flag(f.italic, "3") + Flag(f.underline, "4") +
    Flag(f.blink, "5") + Flag(f.inverse, "7") + Flag(f.hidden, "8") + Flag(f.strikethrough, "9")
  }

  function ActiveCodes(s: Style): seq<Code> {
    var params := ActiveParams(s);
    (if params != [] then [Sgr(Join(params))] else []) +
    (if s.link.Some? then [Osc8(s.link.value.params + ";" + s.link.value.url, s.link.value.terminator)] else [])
  }

  /** At the end of a line underline and hyperlink are closed; the next line restores them. */
  function LineEndReset(s: Style): seq<Code> {
    (if s.flags.underline then [Sgr("24")] else []) +
    (if s.link.Some? then [Osc8(";", s.link.value.terminator)] else [])
  }

  // Restoring a style.

  /** A colour as `ApplyParams` stores it. */
  predicate ColorText(color: string, extended: int) {
    && ParamChars(color)
    && (PartsAreDigits(color);
        var parts := SplitOn(color, ';');
        && Join(parts) == color
        && if |parts| == 1 then
             && Value(parts[0]) >= 30 && parts[0] == Numeral(Value(parts[0]))
             && (if extended == 38 then StandardForeground(Value(parts[0])) else StandardBackground(Value(parts[0])))
           else Value(parts[0]) == extended && ColorLength(parts) == |parts|)
  }

  predicate Proper(s: Style) {
    && (s.fg.Some? ==> ColorText(s.fg.value, 38))
    && (s.bg.Some? ==> ColorText(s.bg.value, 48))
    && (s.link.Some? ==> s.link.value.url != "" && ';' !in s.link.value.params)
  }

  /** All parts of all the texts, in order. */
  function SplitEach(texts: seq<string>): (parts: seq<string>) {
    if texts == [] then [] else SplitOn(texts[0], ';') + SplitEach(texts[1..])
  }

  lemma {:induction false} SplitEachAppend(a: seq<string>, b: seq<string>)
    ensures SplitEach(a + b) == SplitEach(a) + SplitEach(b)
  {
    if a == [] {
      assert a + b == b;
    } else {
      assert (a + b)[1..] == a[1..] + b;
      SplitEachAppend(a[1..], b);
    }
  }

  lemma {:induction false} SplitOfJoin(texts: seq<string>)
    requires texts != []
    ensures SplitOn(Join(texts), ';') == SplitEach(texts)
  {
    var front, last := texts[..|texts| - 1], texts[|texts| - 1];
    assert texts == front + [last];
    SplitEachAppend(front, [last]);
    assert SplitEach([last]) == SplitOn(last, ';') + SplitEach([]);
    if front != [] {
      SplitOfJoin(front);
      SplitJoined(Join(front), ';', last);
    }
  }

  lemma {:induction false} JoinParamChars(texts: seq<string>)
    requires forall k :: 0 <= k < |texts| ==> ParamChars(texts[k])
    ensures ParamChars(Join(texts))
  {
    if |texts| > 1 {
      JoinParamChars(texts[..|texts| - 1]);
    }
  }

  lemma {:induction false} SplitEachDigits(parts: seq<string>)
    requires AllDigits(parts)
    ensures SplitEach(parts) == parts
  {
    if parts != [] {
      SplitEachDigits(parts[1..]);
      SplitPart(parts[0], ';');
    }
  }

  lemma SplitJoinDigits(parts: seq<string>)
    requires AllDigits(parts) && parts != []
    ensures ParamChars(Join(parts)) && SplitOn(Join(parts), ';') == parts
  {
    SplitEachDigits(parts);
    SplitOfJoin(parts);
    JoinParamChars(parts);
  }

  lemma ExtendedColorText(parts: seq<string>)
    requires AllDigits(parts) && parts != [] && ColorLength(parts) > 0
    ensures ColorText(Join(parts[..ColorLength(parts)]), Value(parts[0]))
  {
    var n := ColorLength(parts);
    assert parts[..n][0] == parts[0] && parts[..n][1] == parts[1];
    SplitJoinDigits(parts[..n]);
  }

  lemma StandardColorText(code: int)
    ensures StandardForeground(code) ==> ColorText(Numeral(code), 38)
    ensures StandardBackground(code) ==> ColorText(Numeral(code), 48)
  {
    if StandardForeground(code) || StandardBackground(code) {
      SplitPart(Numeral(code), ';');
      assert Join([Numeral(code)]) == Numeral(code);
    }
  }

  lemma AttributeColors(s: Style, code: int)
    ensures var r := SetAttribute(s, code);
            && r.link == s.link
            && (r.fg == s.fg || r.fg == None || (StandardForeground(code) && r.fg == Some(Numeral(code))))
            && (r.bg == s.bg || r.bg == None || (StandardBackground(code) && r.bg == Some(Numeral(code))))
  {
    hide Numeral;
  }

  lemma SetAttributeKeepsProper(s: Style, code: int)
    requires Proper(s)
    ensures Proper(SetAttribute(s, code))
  {
    AttributeColors(s, code);
    StandardColorText(code);
    hide ColorText, SetAttribute, Numeral;
  }

  lemma {:induction false} ApplyParamsKeepsProper(s: Style, parts: seq<string>)
    requires Proper(s) && AllDigits(parts)
    ensures Proper(ApplyParams(s, parts)) && ApplyParams(s, parts).link == s.link
    decreases |parts|
  {
    if parts != [] {
      var n := ColorLength(parts);
      if n > 0 {
        ExtendedColorText(parts);
        hide ColorText, SetAttribute, Numeral, Join;
        ApplyParamsKeepsProper(SetColor(s, Value(parts[0]), Join(parts[..n])), parts[n..]);
      } else {
        SetAttributeKeepsProper(s, Value(parts[0]));
        AttributeColors(s, Value(parts[0]));
        hide ColorText, SetAttribute, Numeral, Join;
        ApplyParamsKeepsProper(SetAttribute(s, Value(parts[0])), parts[1..]);
      }
    }
  }

  lemma FirstSeparator(body: string)
    ensures var separator := IndexOf(body, ";");
            separator.Some? ==> ';' !in body[..separator.value] && body[separator.value] == ';'
  {
    forall k | 0 <= k < |body| ensures MatchesAt(body, ";", k) <==> body[k] == ';' {
      assert body[k..k + 1] == [body[k]];
    }
  }

  /** Every style that codes can lead to is one that codes can restore. */
  lemma ApplyKeepsProper(s: Style, code: Code)
    requires Proper(s)
    ensures Proper(Apply(s, code))
  {
    hide ColorText, ApplyParams;
    match code
    case Osc8(body, terminator) =>
      FirstSeparator(body);
    case Sgr(params) =>
      if ParamChars(params) && params != "" && params != "0" {
        PartsAreDigits(params);
        ApplyParamsKeepsProper(s, SplitOn(params, ';'));
      }
    case Other(_) =>
  }

  predicate FlagCode(code: string) {
    |code| == 1 && '1' <= code[0] <= '9'
  }

  predicate AllFlags(codes: seq<string>) {
    forall k :: 0 <= k < |codes| ==> FlagCode(codes[k])
  }

  lemma FlagValue(code: string)
    requires FlagCode(code)
    ensures Digits(code) && 1 <= Value(code) <= 9 && Value(code) == code[0] as int - '0' as int
  {
    assert code[..0] == "" && Decimal(code[..0]) == 0;
  }

  lemma FlagsAreDigits(codes: seq<string>)
    requires AllFlags(codes)
    ensures AllDigits(codes)
  {
    forall k | 0 <= k < |codes| ensures Digits(codes[k]) {
      FlagValue(codes[k]);
    }
  }

  /** Flag codes take nothing from the parameters after them. */
  lemma {:induction false} FlagsFirst(s: Style, codes: seq<string>, rest: seq<string>)
    requires AllFlags(codes) && AllDigits(rest)
    ensures AllDigits(codes) && ApplyParams(s, codes + rest) == ApplyParams(ApplyParams(s, codes), rest)
    decreases |codes|
  {
    hide SetAttribute, Join, Value;
    FlagsAreDigits(codes);
    if codes == [] {
      assert codes + rest == rest;
    } else {
      FlagValue(codes[0]);
      assert (codes + rest)[1..] == codes[1..] + rest;
      FlagsFirst(SetAttribute(s, Value(codes[0])), codes[1..], rest);
    }
  }

  lemma FlagLast(s: Style, codes: seq<string>, on: bool, code: string)
    requires AllFlags(codes) && FlagCode(code)
    ensures AllFlags(codes + Flag(on, code)) && AllDigits(codes) && AllDigits(codes + Flag(on, code)) && Digits(code)
    ensures ApplyParams(s, codes + Flag(on, code)) ==
            if on then SetAttribute(ApplyParams(s, codes), Value(code)) else ApplyParams(s, codes)
  {
    hide SetAttribute, Join;
    FlagValue(code);
    FlagsFirst(s, codes, Flag(on, code));
    FlagsAreDigits(codes + Flag(on, code));
  }

  predicate Restores(codes: seq<string>, f: Flags) {
    AllFlags(codes) && AllDigits(codes) && ApplyParams(PLAIN, codes) == PLAIN.(flags := f)
  }

  /** Appending a flag code to codes that restore `f` without that flag. */
  lemma FlagRestore(f: Flags, codes: seq<string>, on: bool, code: string, g: Flags)
    requires Restores(codes, f) && FlagCode(code)
    requires g == if on then SetFlag(f, code[0] as int - '0' as int) else f
    ensures Restores(codes + Flag(on, code), g)
  {
    FlagLast(PLAIN, codes, on, code);
    FlagValue(code);
    SetSmall(PLAIN.(flags := f), code[0] as int - '0' as int);
    hide SetAttribute, ApplyParams, SetFlag, AllFlags, AllDigits, Flag, Value;
  }

  lemma SetSmall(s: Style, code: int)
    requires 1 <= code <= 9
    ensures SetAttribute(s, code) == s.(flags := SetFlag(s.flags, code))
  {
  }

  lemma FlagsRestore(f: Flags)
    ensures Restores(ActiveFlags(f), f)
  {
    assert Restores([], NO_FLAGS);
    assert [] + Flag(f.bold, "1") == Flag(f.bold, "1");
    hide Restores, Flag;
    var f2, c2 := NO_FLAGS.(bold := f.bold, dim := f.dim), [] + Flag(f.bold, "1") + Flag(f.dim, "2");
    RestoreBoldDim(f, [], NO_FLAGS);
    var f4, c4 := f2.(italic := f.italic, underline := f.underline), c2 + Flag(f.italic, "3") + Flag(f.underline, "4");
    RestoreItalicUnderline(f, c2, f2);
    LastFlagsRestore(f, c4, f4);
  }

  lemma LastFlagsRestore(f: Flags, codes: seq<string>, g: Flags)
    requires Restores(codes, g)
    requires g == f.(blink := false, inverse := false, hidden := false, strikethrough := false)
    ensures Restores(codes + Flag(f.blink, "5") + Flag(f.inverse, "7")
                     + Flag(f.hidden, "8") + Flag(f.strikethrough, "9"), f)
  {
    hide Restores, Flag;
    RestoreBlinkInverse(f, codes, g);
    RestoreHiddenStrikethrough(f, codes + Flag(f.blink, "5") + Flag(f.inverse, "7"),
                               g.(blink := f.blink, inverse := f.inverse));
  }

  lemma RestoreBoldDim(f: Flags, codes: seq<string>, g: Flags)
    requires Restores(codes, g) && !g.bold && !g.dim
    ensures Restores(codes + Flag(f.bold, "1") + Flag(f.dim, "2"), g.(bold := f.bold, dim := f.dim))
  {
    hide Restores, Flag;
    FlagRestore(g, codes, f.bold, "1", g.(bold := f.bold));
    FlagRestore(g.(bold := f.bold), codes + Flag(f.bold, "1"), f.dim, "2", g.(bold := f.bold, dim := f.dim));
  }

  lemma RestoreItalicUnderline(f: Flags, codes: seq<string>, g: Flags)
    requires Restores(codes, g) && !g.italic && !g.underline
    ensures Restores(codes + Flag(f.italic, "3") + Flag(f.underline, "4"),
                     g.(italic := f.italic, underline := f.underline))
  {
    hide Restores, Flag;
    FlagRestore(g, codes, f.italic, "3", g.(italic := f.italic));
    FlagRestore(g.(italic := f.italic), codes + Flag(f.italic, "3"), f.underline, "4",
                g.(italic := f.italic, underline := f.underline));
  }

  lemma RestoreBlinkInverse(f: Flags, codes: seq<string>, g: Flags)
    requires Restores(codes, g) && !g.blink && !g.inverse
    ensures Restores(codes + Flag(f.blink, "5") + Flag(f.inverse, "7"), g.(blink := f.blink, inverse := f.inverse))
  {
    hide Restores, Flag;
    FlagRestore(g, codes, f.blink, "5", g.(blink := f.blink));
    FlagRestore(g.(blink := f.blink), codes + Flag(f.blink, "5"), f.inverse, "7",
                g.(blink := f.blink, inverse := f.inverse));
  }

  lemma RestoreHiddenStrikethrough(f: Flags, codes: seq<string>, g: Flags)
    requires Restores(codes, g) && !g.hidden && !g.strikethrough
    ensures Restores(codes + Flag(f.hidden, "8") + Flag(f.strikethrough, "9"),
                     g.(hidden := f.hidden, strikethrough := f.strikethrough))
  {
    hide Restores, Flag;
    FlagRestore(g, codes, f.hidden, "8", g.(hidden := f.hidden));
    FlagRestore(g.(hidden := f.hidden), codes + Flag(f.hidden, "8"), f.strikethrough, "9",
                g.(hidden := f.hidden, strikethrough := f.strikethrough));
  }

  lemma ColorStep(s: Style, color: string, extended: int, parts: seq<string>)
    requires extended == 38 || extended == 48
    requires ColorText(color, extended) && AllDigits(parts)
    ensures AllDigits(SplitOn(color, ';'))
    ensures ApplyParams(s, SplitOn(color, ';') + parts) == ApplyParams(SetColor(s, extended, color), parts)
  {
    PartsAreDigits(color);
    var own := SplitOn(color, ';');
    assert |own| == 1 ==> Join(own) == own[0];
    hide Numeral, SetAttribute, Join;
    if |own| == 1 {
      StandardStep(s, color, extended, parts);
    } else {
      ExtendedStep(s, own, parts);
    }
  }

  lemma StandardStep(s: Style, color: string, extended: int, parts: seq<string>)
    requires Digits(color) && color != "" && color == Numeral(Value(color)) && AllDigits(parts)
    requires if extended == 38 then StandardForeground(Value(color)) else StandardBackground(Value(color))
    ensures ApplyParams(s, [color] + parts) == ApplyParams(SetColor(s, extended, color), parts)
  {
    hide Numeral;
    assert ([color] + parts)[1..] == parts;
  }

  lemma ExtendedStep(s: Style, own: seq<string>, parts: seq<string>)
    requires AllDigits(own) && AllDigits(parts) && own != [] && ColorLength(own) == |own|
    ensures ApplyParams(s, own + parts) == ApplyParams(SetColor(s, Value(own[0]), Join(own)), parts)
  {
    hide SetAttribute, Join;
    var all := own + parts;
    assert all[0] == own[0] && all[1] == own[1];
    assert ColorLength(all) == |own|;
    assert all[..|own|] == own && all[|own|..] == parts;
  }

  lemma ColorsRestore(s: Style)
    requires Proper(s)
    ensures var colors := (if s.fg.Some? then [s.fg.value] else []) + (if s.bg.Some? then [s.bg.value] else []);
            && AllDigits(SplitEach(colors))
            && ApplyParams(PLAIN.(flags := s.flags), SplitEach(colors)) == s.(link := None)
  {
    hide SetAttribute, ColorText;
    var base := PLAIN.(flags := s.flags);
    var back := if s.bg.Some? then [s.bg.value] else [];
    if s.bg.Some? {
      ColorStep(base.(fg := s.fg), s.bg.value, 48, []);
      assert SplitEach(back) == SplitOn(s.bg.value, ';') + [];
    }
    if s.fg.Some? {
      ColorStep(base, s.fg.value, 38, SplitEach(back));
      assert ([s.fg.value] + back)[1..] == back;
    } else {
      assert [] + back == back;
    }
  }

  /** From the plain style, the codes for a style that codes can lead to restore exactly that style. */
  lemma RoundTrip(s: Style)
    requires Proper(s)
    ensures ApplyAll(PLAIN, ActiveCodes(s)) == s
  {
    var params := ActiveParams(s);
    var sgr := if params != [] then [Sgr(Join(params))] else [];
    var link := if s.link.Some? then [Osc8(s.link.value.params + ";" + s.link.value.url, s.link.value.terminator)]
        else [];
    ParamsRestore(s);
    assert ApplyAll(PLAIN, sgr) == s.(link := None) by {
      assert sgr != [] ==> sgr[..0] == [];
    }
    if s.link.Some? {
      LinkRestore(s.(link := None), s.link.value);
      assert (sgr + link)[..|sgr|] == sgr;
    } else {
      assert sgr + link == sgr;
    }
  }

  lemma LinkRestore(s: Style, link: Hyperlink)
    requires link.url != "" && ';' !in link.params
    ensures Apply(s, Osc8(link.params + ";" + link.url, link.terminator)) == s.(link := Some(link))
  {
    var body := link.params + ";" + link.url;
    FirstSeparator(body);
    var n := |link.params|;
    assert body[n] == ';' && body[n..n + 1] == ";";
    assert MatchesAt(body, ";", n);
    assert forall k :: 0 <= k < n ==> body[k] == link.params[k];
    assert body[..n] == link.params && body[n + 1..] == link.url;
  }

  lemma ParamsRestore(s: Style)
    requires Proper(s)
    ensures var params := ActiveParams(s);
            if params == [] then s.(link := None) == PLAIN
            else Apply(PLAIN, Sgr(Join(params))) == s.(link := None)
  {
    hide ColorText, SetAttribute;
    var params := ActiveParams(s);
    var flags := ActiveFlags(s.flags);
    var colors := (if s.fg.Some? then [s.fg.value] else []) + (if s.bg.Some? then [s.bg.value] else []);
    FlagsRestore(s.flags);
    ColorsRestore(s);
    SplitEachAppend(flags, colors);
    SplitEachDigits(flags);
    FlagsFirst(PLAIN, flags, SplitEach(colors));
    if params != [] {
      SplitOfJoin(params);
      ActiveParamChars(s);
      JoinParamChars(params);
      NotAReset(s);
    }
  }

  lemma ActiveParamChars(s: Style)
    requires Proper(s)
    ensures var params := ActiveParams(s); forall k :: 0 <= k < |params| ==> ParamChars(params[k])
  {
    FlagsRestore(s.flags);
  }

  lemma NotAReset(s: Style)
    requires Proper(s) && ActiveParams(s) != []
    ensures Join(ActiveParams(s)) != "" && Join(ActiveParams(s)) != "0"
  {
    var params := ActiveParams(s);
    SplitOfJoin(params);
    assert SplitEach(params)[0] == SplitOn(params[0], ';')[0];
    assert SplitOn("", ';') == [""];
    SplitPart("0", ';');
    FirstParam(s);
    hide Join, SplitEach, SplitOn, ActiveParams, Value;
  }

  lemma FirstParam(s: Style)
    requires Proper(s) && ActiveParams(s) != []
    ensures SplitOn(ActiveParams(s)[0], ';')[0] != "" && SplitOn(ActiveParams(s)[0], ';')[0] != "0"
  {
    var first := ActiveParams(s)[0];
    FlagsRestore(s.flags);
    hide ApplyParams, SplitOn, ColorText;
    if ActiveFlags(s.flags) != [] {
      assert first == ActiveFlags(s.flags)[0];
      hide ActiveFlags;
      FlagValue(first);
      SplitPart(first, ';');
      NotZero(first);
    } else if s.fg.Some? {
      ColorFirst(first, 38);
    } else {
      ColorFirst(first, 48);
    }
  }

  lemma ColorFirst(color: string, extended: int)
    requires ColorText(color, extended) && extended > 0
    ensures SplitOn(color, ';')[0] != "" && SplitOn(color, ';')[0] != "0"
  {
    hide Numeral, Join;
    PartsAreDigits(color);
    NotZero(SplitOn(color, ';')[0]);
  }

  lemma NotZero(part: string)
    requires Digits(part) && Value(part) >= 1
    ensures part != "" && part != "0"
  {
    assert "0"[..0] == "";
  }

  lemma {:induction false} ApplyAllKeepsProper(codes: seq<Code>)
    ensures Proper(ApplyAll(PLAIN, codes))
  {
    if codes != [] {
      ApplyAllKeepsProper(codes[..|codes| - 1]);
      ApplyKeepsProper(ApplyAll(PLAIN, codes[..|codes| - 1]), codes[|codes| - 1]);
    }
  }

  /** Whatever codes have been read, the codes written for the resulting style restore it. */
  lemma ActiveCodesRestore(codes: seq<Code>)
    ensures var style := ApplyAll(PLAIN, codes); ApplyAll(PLAIN, ActiveCodes(style)) == style
  {
    ApplyAllKeepsProper(codes);
    RoundTrip(ApplyAll(PLAIN, codes));
  }

  /** The attributes in force, one field each. */
  class AnsiCodeTracker {
    var bold: bool
    var dim: bool
    var italic: bool
    var underline: bool
    var blink: bool
    var inverse: bool
    var hidden: bool
    var strikethrough: bool
    var fgColor: Option<string>
    var bgColor: Option<string>
    var activeHyperlink: Option<Hyperlink>

    function Now(): Style
      reads this
    {
      Style(Flags(bold, dim, italic, underline, blink, inverse, hidden, strikethrough), fgColor, bgColor,
          activeHyperlink)
    }

    constructor ()
      ensures Now() == PLAIN
    {
      bold, dim, italic, underline := false, false, false, false;
      blink, inverse, hidden, strikethrough := false, false, false, false;
      fgColor, bgColor, activeHyperlink := None, None, None;
    }

    method ResetAttributes()
      modifies this
      ensures Now() == Reset(old(Now()))
    {
      bold, dim, italic, underline := false, false, false, false;
      blink, inverse, hidden, strikethrough := false, false, false, false;
      fgColor, bgColor := None, None;
    }

    method Clear()
      modifies this
      ensures Now() == PLAIN
    {
      ResetAttributes();
      activeHyperlink := None;
    }

    method TurnOn(code: int)
      requires code < 10
      modifies this
      ensures Now() == old(Now()).(flags := SetFlag(old(Now().flags), code))
    {
      match code
      case 1 => bold := true;
      case 2 => dim := true;
      case 3 => italic := true;
      case 4 => underline := true;
      case 5 => blink := true;
      case 7 => inverse := true;
      case 8 => hidden := true;
      case 9 => strikethrough := true;
      case _ =>
    }

    method TurnOff(code: int)
      requires code >= 10
      modifies this
      ensures Now() == old(Now()).(flags := SetFlag(old(Now().flags), code))
    {
      match code
      case 21 => bold := false;
      case 22 => bold, dim := false, false;
      case 23 => italic := false;
      case 24 => underline := false;
      case 25 => blink := false;
      case 27 => inverse := false;
      case 28 => hidden := false;
      case 29 => strikethrough := false;
      case _ =>
    }

    method SetStandard(code: int)
      modifies this
      ensures Now() == SetAttribute(old(Now()), code)
    {
      if code == 0 {
        ResetAttributes();
      } else if code == 39 {
        fgColor := None;
      } else if code == 49 {
        bgColor := None;
      } else if StandardForeground(code) {
        fgColor := Some(Numeral(code));
      } else if StandardBackground(code) {
        bgColor := Some(Numeral(code));
      } else if code < 10 {
        TurnOn(code);
      } else {
        TurnOff(code);
      }
    }

    method ProcessParams(parts: seq<string>)
      requires AllDigits(parts)
      modifies this
      ensures Now() == ApplyParams(old(Now()), parts)
    {
      hide SetAttribute, Join;
      var i := 0;
      while i < |parts|
        invariant 0 <= i <= |parts|
        invariant ApplyParams(Now(), parts[i..]) == ApplyParams(old(Now()), parts)
      {
        var code := Value(parts[i]);
        var n := ColorLength(parts[i..]);
        if n > 0 {
          var colorCode := Join(parts[i..][..n]);
          if code == 38 {
            fgColor := Some(colorCode);
          } else {
            bgColor := Some(colorCode);
          }
          assert parts[i..][n..] == parts[i + n..];
          i := i + n;
        } else {
          SetStandard(code);
          assert parts[i..][1..] == parts[i + 1..];
          i := i + 1;
        }
      }
    }

    method Process(code: Code)
      modifies this
      ensures Now() == Apply(old(Now()), code)
    {
      match code
      case Osc8(body, terminator) =>
        var hyperlink := ParseOsc8(body, terminator);
        if hyperlink.Some? {
          activeHyperlink := hyperlink.value;
        }
      case Sgr(params) =>
        if ParamChars(params) {
          if params == "" || params == "0" {
            ResetAttributes();
          } else {
            PartsAreDigits(params);
            ProcessParams(SplitOn(params, ';'));
          }
        }
      case Other(_) =>
    }

    function GetActiveCodes(): seq<Code>
      reads this
    {
      ActiveCodes(Now())
    }

    function GetLineEndReset(): seq<Code>
      reads this
    {
      LineEndReset(Now())
    }
  }
}
