/** What each code does to the style, code by code (ECMA-48 section 8.3.117), and that a list of codes does
    what its codes do one after the other. */
module AnsiTable {
  import opened Ansi
  import opened Text

  const NONE_SET := Flags(false, false, false, false, false, false, false, false)

  /** One parameter, as written. */
  predicate Parameter(p: string) {
    p != "" && Digits(p)
  }

  lemma {:induction false} NumeralOfDigits(p: string)
    requires Parameter(p) && p[0] != '0'
    ensures Numeral(Decimal(p)) == p && 0 < Decimal(p)
  {
    var front, d := p[..|p| - 1], p[|p| - 1] as int - '0' as int;
    assert p == front + [Digit(d)];
    if front != "" {
      NumeralOfDigits(front);
      assert Decimal(p) / 10 == Decimal(front) && Decimal(p) % 10 == d;
    } else {
      assert p == [Digit(d)] && "" + [Digit(d)] == [Digit(d)];
    }
  }

  /** A list of one parameter. */
  lemma OneParameter(s: Style, p: string)
    requires Parameter(p)
    ensures Apply(s, Sgr(p)) == SetAttribute(s, Decimal(p))
  {
    SplitPart(p, ';');
    PartsAreDigits(p);
    assert ParamChars(p) && SplitOn(p, ';') == [p] && [p][1..] == [];
    if p == "0" {
      assert "0"[..0] == "" && Decimal("") == 0;
    } else {
      assert ColorLength([p]) == 0;
      assert ApplyParams(s, [p]) == ApplyParams(SetAttribute(s, Decimal(p)), []);
    }
  }

  /** Leading zeros do not matter. */
  lemma {:induction false} LeadingZero(p: string)
    requires Digits(p)
    ensures Digits("0" + p) && Decimal("0" + p) == Decimal(p)
  {
    if p == "" {
      assert "0" + p == "0" && "0"[..0] == "";
    } else {
      var front := p[..|p| - 1];
      LeadingZero(front);
      assert ("0" + p)[..|p|] == "0" + front;
    }
  }

  /** The attributes: what a code sets or clears, and that it changes nothing else. */
  lemma FlagTable(s: Style, p: string)
    requires Parameter(p)
    ensures var t, f := Apply(s, Sgr(p)), s.flags;
            match Decimal(p)
            case 1 => t == s.(flags := f.(bold := true))
            case 2 => t == s.(flags := f.(dim := true))
            case 3 => t == s.(flags := f.(italic := true))
            case 4 => t == s.(flags := f.(underline := true))
            case 5 => t == s.(flags := f.(blink := true))
            case 7 => t == s.(flags := f.(inverse := true))
            case 8 => t == s.(flags := f.(hidden := true))
            case 9 => t == s.(flags := f.(strikethrough := true))
            case 21 => t == s.(flags := f.(bold := false))
            case 22 => t == s.(flags := f.(bold := false, dim := false))
            case 23 => t == s.(flags := f.(italic := false))
            case 24 => t == s.(flags := f.(underline := false))
            case 25 => t == s.(flags := f.(blink := false))
            case 27 => t == s.(flags := f.(inverse := false))
            case 28 => t == s.(flags := f.(hidden := false))
            case 29 => t == s.(flags := f.(strikethrough := false))
            case _ => true
  {
    OneParameter(s, p);
    hide Apply, Decimal;
  }

  /** The colours, the resets, and that every other code does nothing. A standard colour is kept as it is
      written. */
  lemma ColorTable(s: Style, p: string)
    requires Parameter(p)
    ensures var t, n := Apply(s, Sgr(p)), Decimal(p);
            && (n == 0 ==> t == Style(NONE_SET, None, None, s.link))
            && (n == 39 ==> t == s.(fg := None))
            && (n == 49 ==> t == s.(bg := None))
            && (30 <= n <= 37 || 90 <= n <= 97 ==> p[0] != '0' ==> t == s.(fg := Some(p)))
            && (40 <= n <= 47 || 100 <= n <= 107 ==> p[0] != '0' ==> t == s.(bg := Some(p)))
            && (n == 6 || 10 <= n <= 20 || n == 26 || n == 38 || n == 48 ==> t == s)
            && (50 <= n <= 89 || 98 <= n <= 99 || 107 < n ==> t == s)
  {
    hide Apply, Decimal, Numeral, SetAttribute, Digits;
    OneParameter(s, p);
    AttributeTable(s, Decimal(p));
    if p[0] != '0' { NumeralOfDigits(p); }
  }

  lemma AttributeTable(s: Style, n: nat)
    ensures var t := SetAttribute(s, n);
            && (n == 0 ==> t == Style(NONE_SET, None, None, s.link))
            && (n == 39 ==> t == s.(fg := None))
            && (n == 49 ==> t == s.(bg := None))
            && (30 <= n <= 37 || 90 <= n <= 97 ==> t == s.(fg := Some(Numeral(n))))
            && (40 <= n <= 47 || 100 <= n <= 107 ==> t == s.(bg := Some(Numeral(n))))
            && (n == 6 || 10 <= n <= 20 || n == 26 || n == 38 || n == 48 ==> t == s)
            && (50 <= n <= 89 || 98 <= n <= 99 || 107 < n ==> t == s)
  {
    hide Numeral;
  }

  /** No parameter at all is a reset, which keeps the hyperlink. */
  lemma NoParameter(s: Style)
    ensures Apply(s, Sgr("")) == Style(NONE_SET, None, None, s.link)
  {
  }

  /** `38` or `48` and what follows it are a palette or an RGB colour. */
  predicate TakesColor(p: string, rest: string) {
    && Digits(p) && p != "" && (Decimal(p) == 38 || Decimal(p) == 48)
    && var parts := SplitOn(rest, ';');
       (parts[0] == "5" && 1 < |parts|) || (parts[0] == "2" && 3 < |parts|)
  }

  lemma ListParts(p: string, rest: string)
    requires Digits(p) && ParamChars(rest)
    ensures ParamChars(p + ";" + rest) && p + ";" + rest != "" && p + ";" + rest != "0"
    ensures AllDigits([p] + SplitOn(rest, ';')) && SplitOn(p + ";" + rest, ';') == [p] + SplitOn(rest, ';')
  {
    SplitFirst(p, ';', rest);
    PartsAreDigits(rest);
    assert (p + ";" + rest)[|p|] == ';';
  }

  lemma RestApplies(s: Style, rest: string)
    requires ParamChars(rest) && rest != ""
    ensures AllDigits(SplitOn(rest, ';')) && Apply(s, Sgr(rest)) == ApplyParams(s, SplitOn(rest, ';'))
  {
    PartsAreDigits(rest);
    if rest == "0" {
      SplitPart("0", ';');
      assert "0"[..0] == "" && Decimal("") == 0 && ["0"][1..] == [];
      assert ApplyParams(s, ["0"]) == ApplyParams(SetAttribute(s, 0), []);
    }
  }

  /** A code in a list does what it does alone, and the rest of the list follows. */
  lemma CodesOneByOne(s: Style, p: string, rest: string)
    requires Parameter(p) && ParamChars(rest) && rest != "" && !TakesColor(p, rest)
    ensures Apply(s, Sgr(p + ";" + rest)) == Apply(Apply(s, Sgr(p)), Sgr(rest))
  {
    hide SetAttribute, SplitOn, Decimal, Join;
    OneParameter(s, p);
    ListParts(p, rest);
    RestApplies(Apply(s, Sgr(p)), rest);
    var parts := [p] + SplitOn(rest, ';');
    assert parts[1..] == SplitOn(rest, ';') && parts[1] == SplitOn(rest, ';')[0];
    assert ColorLength(parts) == 0;
    assert ApplyParams(s, parts) == ApplyParams(SetAttribute(s, Decimal(p)), parts[1..]);
  }

  /** An empty parameter in a list does nothing. */
  lemma EmptyParameter(s: Style, rest: string)
    requires ParamChars(rest) && rest != ""
    ensures Apply(s, Sgr(";" + rest)) == Apply(s, Sgr(rest))
  {
    hide SplitOn, Decimal, Join;
    assert "" + ";" + rest == ";" + rest;
    ListParts("", rest);
    RestApplies(s, rest);
    var parts := [""] + SplitOn(rest, ';');
    assert parts[1..] == SplitOn(rest, ';');
    assert ColorLength(parts) == 0 && SetAttribute(s, -1) == s;
    assert ApplyParams(s, parts) == ApplyParams(SetAttribute(s, -1), parts[1..]);
  }

  /** A palette colour is kept as it is written, with the list that may follow it. */
  lemma PaletteColor(s: Style, index: string, rest: string)
    requires Digits(index) && ParamChars(rest) && rest != ""
    ensures Apply(s, Sgr("38;5;" + index)) == s.(fg := Some("38;5;" + index))
    ensures Apply(s, Sgr("48;5;" + index)) == s.(bg := Some("48;5;" + index))
    ensures Apply(s, Sgr("38;5;" + index + ";" + rest)) == Apply(s.(fg := Some("38;5;" + index)), Sgr(rest))
    ensures Apply(s, Sgr("48;5;" + index + ";" + rest)) == Apply(s.(bg := Some("48;5;" + index)), Sgr(rest))
  {
    Palette(s, "38", index);
    Palette(s, "48", index);
    PaletteThen(s, "38", index, rest);
    PaletteThen(s, "48", index, rest);
    Extended();
    hide Apply;
    assert "38" + ";5;" + index == "38;5;" + index && "48" + ";5;" + index == "48;5;" + index;
  }

  /** An RGB colour likewise. */
  lemma RgbColor(s: Style, r: string, g: string, b: string, rest: string)
    requires Digits(r) && Digits(g) && Digits(b) && ParamChars(rest) && rest != ""
    ensures var rgb := r + ";" + g + ";" + b;
            && Apply(s, Sgr("38;2;" + rgb)) == s.(fg := Some("38;2;" + rgb))
            && Apply(s, Sgr("48;2;" + rgb)) == s.(bg := Some("48;2;" + rgb))
            && Apply(s, Sgr("38;2;" + rgb + ";" + rest)) == Apply(s.(fg := Some("38;2;" + rgb)), Sgr(rest))
            && Apply(s, Sgr("48;2;" + rgb + ";" + rest)) == Apply(s.(bg := Some("48;2;" + rgb)), Sgr(rest))
  {
    Rgb(s, "38", r, g, b);
    Rgb(s, "48", r, g, b);
    RgbThen(s, "38", r, g, b, rest);
    RgbThen(s, "48", r, g, b, rest);
    Extended();
    hide Apply;
    var rgb := r + ";" + g + ";" + b;
    assert "38" + ";2;" + rgb == "38;2;" + rgb && "48" + ";2;" + rgb == "48;2;" + rgb;
  }

  lemma Extended()
    ensures Decimal("38") == 38 && Decimal("48") == 48 && Decimal("5") == 5 && Decimal("2") == 2
  {
    assert "38"[..1] == "3" && "48"[..1] == "4" && "3"[..0] == "" && "4"[..0] == "" && "5"[..0] == "" && "2"[..0] == "";
  }

  lemma JoinPush(parts: seq<string>, last: string)
    requires parts != []
    ensures Join(parts + [last]) == Join(parts) + ";" + last
  {
    assert (parts + [last])[..|parts|] == parts;
  }

  lemma PaletteJoin(code: string, index: string)
    ensures Join([code, "5", index]) == code + ";5;" + index
  {
    JoinPush([code], "5");
    JoinPush([code, "5"], index);
    assert [code] + ["5"] == [code, "5"] && [code, "5"] + [index] == [code, "5", index];
    assert code + ";" + "5" + ";" + index == code + ";5;" + index;
  }

  lemma PaletteSplit(code: string, index: string)
    requires Digits(code) && Digits(index)
    ensures SplitOn(code + ";5;" + index, ';') == [code, "5", index]
  {
    hide SplitOn;
    SplitPart(index, ';');
    SplitFirst("5", ';', index);
    SplitFirst(code, ';', "5" + ";" + index);
    assert code + ";5;" + index == code + ";" + ("5" + ";" + index);
    assert [code] + (["5"] + [index]) == [code, "5", index];
  }

  lemma PaletteParts(code: string, index: string)
    requires (code == "38" || code == "48") && Digits(index)
    ensures var text := code + ";5;" + index;
            && ParamChars(text) && text != "" && text != "0"
            && SplitOn(text, ';') == [code, "5", index] && AllDigits([code, "5", index])
            && Join([code, "5", index]) == text
  {
    hide SplitOn, Join;
    PaletteSplit(code, index);
    PaletteJoin(code, index);
  }

  lemma Palette(s: Style, code: string, index: string)
    requires (code == "38" || code == "48") && Digits(index)
    ensures Apply(s, Sgr(code + ";5;" + index)) == SetColor(s, Decimal(code), code + ";5;" + index)
  {
    hide SplitOn, Decimal, Join;
    Extended();
    PaletteParts(code, index);
    var parts := [code, "5", index];
    assert ColorLength(parts) == 3 && parts[..3] == parts && parts[3..] == [];
    assert ApplyParams(s, parts) == ApplyParams(SetColor(s, Decimal(code), Join(parts)), []);
  }

  lemma PaletteThen(s: Style, code: string, index: string, rest: string)
    requires (code == "38" || code == "48") && Digits(index) && ParamChars(rest) && rest != ""
    ensures Apply(s, Sgr(code + ";5;" + index + ";" + rest))
         == Apply(SetColor(s, Decimal(code), code + ";5;" + index), Sgr(rest))
  {
    hide SplitOn, Decimal, Join, SetColor;
    Extended();
    PaletteParts(code, index);
    var text := code + ";5;" + index;
    ColorThen(s, text, [code, "5", index], rest);
  }

  /** A colour and the list after it. */
  lemma ColorThen(s: Style, text: string, own: seq<string>, rest: string)
    requires AllDigits(own) && own != [] && ColorLength(own) == |own| && own[0] != ""
    requires ParamChars(text) && SplitOn(text, ';') == own && Join(own) == text && ParamChars(rest) && rest != ""
    ensures Apply(s, Sgr(text + ";" + rest)) == Apply(SetColor(s, Decimal(own[0]), text), Sgr(rest))
  {
    hide SplitOn, Decimal, Join, SetColor, SetAttribute;
    SplitJoined(text, ';', rest);
    RestApplies(SetColor(s, Decimal(own[0]), text), rest);
    var parts := own + SplitOn(rest, ';');
    var n := |own|;
    assert parts[..n] == own && parts[n..] == SplitOn(rest, ';');
    assert ColorLength(parts) == n;
    assert ApplyParams(s, parts) == ApplyParams(SetColor(s, Decimal(own[0]), Join(own)), parts[n..]);
    assert ParamChars(text + ";" + rest) && (text + ";" + rest)[|text|] == ';';
  }

  lemma RgbJoin(code: string, r: string, g: string, b: string)
    ensures Join([code, "2", r, g, b]) == code + ";2;" + (r + ";" + g + ";" + b)
  {
    JoinPush([code], "2");
    JoinPush([code, "2"], r);
    JoinPush([code, "2", r], g);
    JoinPush([code, "2", r, g], b);
    assert [code] + ["2"] == [code, "2"] && [code, "2"] + [r] == [code, "2", r];
    assert [code, "2", r] + [g] == [code, "2", r, g] && [code, "2", r, g] + [b] == [code, "2", r, g, b];
    assert code + ";" + "2" + ";" + r + ";" + g + ";" + b == code + ";2;" + (r + ";" + g + ";" + b);
  }

  lemma RgbSplit(code: string, r: string, g: string, b: string)
    requires Digits(code) && Digits(r) && Digits(g) && Digits(b)
    ensures SplitOn(code + ";2;" + (r + ";" + g + ";" + b), ';') == [code, "2", r, g, b]
  {
    hide SplitOn;
    var rgb := r + ";" + (g + ";" + b);
    SplitPart(b, ';');
    SplitFirst(g, ';', b);
    SplitFirst(r, ';', g + ";" + b);
    SplitFirst("2", ';', rgb);
    SplitFirst(code, ';', "2" + ";" + rgb);
    assert code + ";2;" + (r + ";" + g + ";" + b) == code + ";" + ("2" + ";" + rgb);
    assert [code] + (["2"] + ([r] + ([g] + [b]))) == [code, "2", r, g, b];
  }

  lemma RgbParts(code: string, r: string, g: string, b: string)
    requires (code == "38" || code == "48") && Digits(r) && Digits(g) && Digits(b)
    ensures var text, parts := code + ";2;" + (r + ";" + g + ";" + b), [code, "2", r, g, b];
            && ParamChars(text) && text != "" && text != "0"
            && SplitOn(text, ';') == parts && AllDigits(parts) && Join(parts) == text
  {
    hide SplitOn, Join;
    RgbSplit(code, r, g, b);
    RgbJoin(code, r, g, b);
  }

  lemma Rgb(s: Style, code: string, r: string, g: string, b: string)
    requires (code == "38" || code == "48") && Digits(r) && Digits(g) && Digits(b)
    ensures var text := code + ";2;" + (r + ";" + g + ";" + b);
            Apply(s, Sgr(text)) == SetColor(s, Decimal(code), text)
  {
    hide SplitOn, Decimal, Join, SetColor;
    Extended();
    RgbParts(code, r, g, b);
    var parts := [code, "2", r, g, b];
    assert ColorLength(parts) == 5 && parts[..5] == parts && parts[5..] == [];
    assert ApplyParams(s, parts) == ApplyParams(SetColor(s, Decimal(code), Join(parts)), []);
  }

  lemma RgbThen(s: Style, code: string, r: string, g: string, b: string, rest: string)
    requires (code == "38" || code == "48") && Digits(r) && Digits(g) && Digits(b) && ParamChars(rest) && rest != ""
    ensures var text := code + ";2;" + (r + ";" + g + ";" + b);
            Apply(s, Sgr(text + ";" + rest)) == Apply(SetColor(s, Decimal(code), text), Sgr(rest))
  {
    hide SplitOn, Decimal, Join, SetColor;
    Extended();
    RgbParts(code, r, g, b);
    ColorThen(s, code + ";2;" + (r + ";" + g + ";" + b), [code, "2", r, g, b], rest);
  }

  /** Hyperlinks: one is opened with its parameters, URL and terminator, an empty URL closes it, and the
      attributes stay. */
  lemma LinkTable(s: Style, params: string, url: string, terminator: Terminator)
    requires ';' !in params
    ensures Apply(s, Osc8(params + ";" + url, terminator))
         == s.(link := if url == "" then None else Some(Hyperlink(params, url, terminator)))
    ensures Apply(s, Osc8(params, terminator)) == s
  {
    var body := params + ";" + url;
    FirstSeparator(body);
    FirstSeparator(params);
    var n := |params|;
    assert body[n] == ';' && body[n..n + 1] == ";";
    assert MatchesAt(body, ";", n);
    assert forall k :: 0 <= k < n ==> body[k] == params[k];
    assert body[..n] == params && body[n + 1..] == url;
  }

  /** Every other code, and parameters that are not numbers, do nothing. */
  lemma OtherCodes(s: Style, text: string)
    ensures Apply(s, Other(text)) == s
    ensures !ParamChars(text) ==> Apply(s, Sgr(text)) == s
  {
  }

  /** The codes at the end of a line end underline and hyperlink, and nothing else. */
  lemma LineEndCloses(s: Style)
    ensures ApplyAll(s, LineEndReset(s)) == s.(flags := s.flags.(underline := false), link := None)
  {
    hide Apply;
    var first: seq<Code> := if s.flags.underline then [Sgr("24")] else [];
    UnderlineEnds(s);
    if s.link.Some? {
      var t := s.(flags := s.flags.(underline := false));
      LinkTable(t, "", "", s.link.value.terminator);
      assert "" + ";" + "" == ";";
      var all := first + [Osc8(";", s.link.value.terminator)];
      assert all[..|first|] == first;
    } else {
      assert first + [] == first;
    }
  }

  lemma UnderlineEnds(s: Style)
    ensures ApplyAll(s, if s.flags.underline then [Sgr("24")] else []) == s.(flags := s.flags.(underline := false))
  {
    hide Apply, Decimal;
    TwentyFour();
    FlagTable(s, "24");
    assert [Sgr("24")][..0] == [];
  }

  lemma TwentyFour()
    ensures Digits("24") && Decimal("24") == 24
  {
    assert "24"[..1] == "2" && "2"[..0] == "";
  }
}
