/** Which sequences the input splitter takes as one piece, kind by kind (ECMA-48 sections 5.4 and 5.6, and the
    mouse and key reports of terminals). */
module StdinGrammar {
  import opened StdinBuffers
  import opened Text

  const ST: string := [ESC, '\\']

  /** The sequence is one piece, whatever follows it, and until it is complete it is held back. */
  ghost predicate OnePiece(s: string, rest: string) {
    && Split(s + rest) == Pieces([s] + Split(rest).sequences, Split(rest).remainder)
    && forall n :: 0 < n < |s| ==> Split(s[..n]) == Pieces([], s[..n])
  }

  lemma FirstCompleteIs(s: string, rest: string)
    requires s != "" && IsCompleteSequence(s) != Incomplete
    requires forall k :: 1 <= k < |s| ==> IsCompleteSequence(s[..k]) == Incomplete
    ensures FirstComplete(s + rest, 1) == Some(|s|)
  {
    hide IsCompleteSequence;
    var all := s + rest;
    assert all[..|s|] == s;
    forall k | 1 <= k < |s| ensures IsCompleteSequence(all[..k]) == Incomplete {
      assert all[..k] == s[..k];
    }
  }

  lemma NoneComplete(s: string)
    requires forall k :: 1 <= k <= |s| ==> IsCompleteSequence(s[..k]) == Incomplete
    ensures FirstComplete(s, 1) == None
  {
    hide IsCompleteSequence;
  }

  /** A sequence that is complete and none of whose prefixes is. */
  lemma CompleteIsOnePiece(s: string, rest: string)
    requires 2 <= |s| && s[0] == ESC && s != [ESC, ESC] && IsCompleteSequence(s) != Incomplete
    requires forall k :: 1 <= k < |s| ==> IsCompleteSequence(s[..k]) == Incomplete
    ensures OnePiece(s, rest)
  {
    hide IsCompleteSequence, FirstComplete;
    FirstCompleteIs(s, rest);
    var all := s + rest;
    assert all[..|s|] == s && all[|s|..] == rest;
    assert FirstPiece(all) == Some(|s|);
    forall n | 0 < n < |s| ensures Split(s[..n]) == Pieces([], s[..n]) {
      forall k | 1 <= k <= n ensures IsCompleteSequence(s[..n][..k]) == Incomplete {
        assert s[..n][..k] == s[..k];
      }
      NoneComplete(s[..n]);
      assert FirstPiece(s[..n]) == None;
    }
  }

  predicate FinalByte(c: char) {
    0x40 <= c as int <= 0x7e
  }

  predicate NoFinalByte(s: string) {
    forall k :: 0 <= k < |s| ==> !FinalByte(s[k])
  }

  lemma ShortCsi()
    ensures IsCompleteSequence([ESC]) == Incomplete && IsCompleteSequence([ESC, '[']) == Incomplete
  {
  }

  lemma CsiStatus(payload: string)
    requires payload != "" && payload[0] != 'M'
    ensures IsCompleteSequence([ESC, '['] + payload) == IsCompleteCsi([ESC, '['] + payload)
  {
    var s := [ESC, '['] + payload;
    assert s[1] == '[' && s[2] == payload[0];
    assert s[1..][..2][1] == payload[0];
    hide IsCompleteCsi;
  }

  lemma NotYetFinal(payload: string)
    requires payload != "" && NoFinalByte(payload)
    ensures IsCompleteSequence([ESC, '['] + payload) == Incomplete
  {
    CsiStatus(payload);
    var s := [ESC, '['] + payload;
    assert s[2..] == payload;
  }

  lemma CsiPrefixes(body: string, final: char)
    requires NoFinalByte(body)
    ensures var s := [ESC, '['] + body + [final];
            forall k :: 1 <= k < |s| ==> IsCompleteSequence(s[..k]) == Incomplete
  {
    var s := [ESC, '['] + body + [final];
    hide IsCompleteSequence;
    ShortCsi();
    forall k | 1 <= k < |s| ensures IsCompleteSequence(s[..k]) == Incomplete {
      if k == 1 {
        assert s[..1] == [ESC];
      } else if k == 2 {
        assert s[..2] == [ESC, '['];
      } else {
        assert s[..k] == [ESC, '['] + body[..k - 2];
        NotYetFinal(body[..k - 2]);
      }
    }
  }

  /** A control sequence: any bytes that are not final, then the first final byte. */
  lemma CsiIsOnePiece(body: string, final: char, rest: string)
    requires NoFinalByte(body) && FinalByte(final)
    requires if body == "" then final != 'M' else body[0] != '<'
    ensures OnePiece([ESC, '['] + body + [final], rest)
  {
    var s := [ESC, '['] + body + [final];
    var payload := body + [final];
    assert s == [ESC, '['] + payload && s[2..] == payload;
    CsiStatus(payload);
    CsiPrefixes(body, final);
    hide IsCompleteSequence;
    assert IsCompleteCsi(s) == Complete;
    CompleteIsOnePiece(s, rest);
  }

  /** A mouse report with three numbers. */
  lemma SgrMouseIsOnePiece(a: string, b: string, c: string, final: char, rest: string)
    requires a != "" && Digits(a) && b != "" && Digits(b) && c != "" && Digits(c) && (final == 'M' || final == 'm')
    ensures OnePiece([ESC, '['] + ("<" + a + ";" + b + ";" + c) + [final], rest)
  {
    hide IsCompleteSequence, SplitOn;
    var numbers := a + ";" + b + ";" + c;
    var body := "<" + numbers;
    assert body == "<" + a + ";" + b + ";" + c;
    MouseNumbers(a, b, c, final);
    CsiStatus(body + [final]);
    CsiPrefixes(body, final);
    var s := [ESC, '['] + body + [final];
    assert s == [ESC, '['] + (body + [final]) && s[2..] == body + [final];
    CompleteIsOnePiece(s, rest);
  }

  lemma MouseNumbers(a: string, b: string, c: string, final: char)
    requires a != "" && Digits(a) && b != "" && Digits(b) && c != "" && Digits(c) && (final == 'M' || final == 'm')
    ensures var body := "<" + (a + ";" + b + ";" + c); NoFinalByte(body) && SgrMouse(body + [final])
  {
    hide SplitOn;
    var numbers := a + ";" + b + ";" + c;
    var payload := "<" + numbers + [final];
    ThreeNumbers(a, b, c);
    assert payload[1..|payload| - 1] == numbers && payload == ("<" + numbers) + [final];
  }

  lemma ThreeNumbers(a: string, b: string, c: string)
    requires Digits(a) && Digits(b) && Digits(c)
    ensures SplitOn(a + ";" + b + ";" + c, ';') == [a, b, c]
  {
    hide SplitOn;
    SplitPart(c, ';');
    SplitFirst(b, ';', c);
    SplitFirst(a, ';', b + ";" + c);
    assert a + ";" + b + ";" + c == a + ";" + (b + ";" + c);
  }

  /** The older mouse report: three bytes after `M`, whatever they are. */
  lemma MouseIsOnePiece(x: char, y: char, z: char, rest: string)
    ensures OnePiece([ESC, '[', 'M', x, y, z], rest)
  {
    var s := [ESC, '[', 'M', x, y, z];
    assert s[1..][..2] == "[M";
    forall k | 1 <= k < |s| ensures IsCompleteSequence(s[..k]) == Incomplete {
      if k >= 3 { assert s[..k][1..][..2] == "[M"; }
    }
    hide IsCompleteCsi;
    assert IsCompleteSequence(s) == Complete;
    CompleteIsOnePiece(s, rest);
  }

  /** A function or cursor key: `ESC O` and one byte. */
  lemma Ss3IsOnePiece(c: char, rest: string)
    ensures OnePiece([ESC, 'O', c], rest)
  {
    var s := [ESC, 'O', c];
    assert s[..1] == [ESC] && s[..2] == [ESC, 'O'];
    CompleteIsOnePiece(s, rest);
  }

  /** A byte that opens no sequence, after an escape: a key with Alt. */
  lemma MetaKeyIsOnePiece(c: char, rest: string)
    requires !OpensSequence(c) && c != ESC
    ensures OnePiece([ESC, c], rest)
  {
    var s := [ESC, c];
    assert s[..1] == [ESC];
    CompleteIsOnePiece(s, rest);
  }

  /** Two escapes are one piece unless the second one opens a sequence; then the first is a key. */
  lemma TwoEscapes(rest: string)
    ensures Split([ESC, ESC] + rest)
         == var first := if rest != "" && OpensSequence(rest[0]) then [ESC] else [ESC, ESC];
            var more := Split(([ESC, ESC] + rest)[|first|..]);
            Pieces([first] + more.sequences, more.remainder)
  {
    TwoEscapesAreOnePiece();
    FirstPieceExtends([ESC, ESC], rest);
    var all := [ESC, ESC] + rest;
    assert all[..1] == [ESC] && all[..2] == [ESC, ESC];
    hide FirstPiece;
    SplitStep(all);
  }

  /** Any other character is a piece by itself. */
  lemma PlainIsOnePiece(c: char, rest: string)
    requires c != ESC
    ensures OnePiece([c], rest)
  {
    var all := [c] + rest;
    assert all[..1] == [c] && all[1..] == rest;
  }

  /** The text up to a terminator holds no earlier end. */
  predicate NoEnd(body: string, bell: bool) {
    && (bell ==> BEL !in body)
    && forall k :: 0 <= k < |body| - 1 ==> !(body[k] == ESC && body[k + 1] == '\\')
  }

  /** What an unfinished string sequence looks like. */
  lemma LastTwo(s: string, a: char, b: char)
    ensures EndsWith(s, [a, b]) ==> |s| >= 2 && s[|s| - 2] == a && s[|s| - 1] == b
    ensures EndsWith(s, [b]) ==> s != "" && s[|s| - 1] == b
  {
    if EndsWith(s, [a, b]) {
      assert s[|s| - 2] == s[|s| - 2..][0] && s[|s| - 1] == s[|s| - 2..][1];
    }
    if EndsWith(s, [b]) {
      assert s[|s| - 1] == s[|s| - 1..][0];
    }
  }

  lemma StringPrefix(kind: char, text: string)
    requires kind == ']' || kind == 'P' || kind == '_'
    requires NoEnd(text, kind == ']')
    ensures IsCompleteSequence([ESC, kind] + text) == Incomplete
  {
    var s := [ESC, kind] + text;
    LastTwo(s, ESC, '\\');
    LastTwo(s, ESC, BEL);
    assert |text| >= 2 ==> s[|s| - 2] == text[|text| - 2];
    assert |text| >= 1 ==> s[|s| - 1] == text[|text| - 1];
    hide EndsWith;
  }

  lemma StringEnds(kind: char, text: string, terminator: string)
    requires kind == ']' || kind == 'P' || kind == '_'
    requires terminator == ST || (kind == ']' && terminator == [BEL])
    ensures IsCompleteSequence([ESC, kind] + text + terminator) == Complete
  {
    var s := [ESC, kind] + text + terminator;
    assert s[|s| - |terminator|..] == terminator;
  }

  lemma NoEndPrefix(body: string, bell: bool, n: nat)
    requires NoEnd(body, bell) && n <= |body|
    ensures NoEnd(body[..n], bell)
  {
  }

  /** Operating system commands up to BEL or ST, device control strings and application program commands up
      to ST. */
  lemma StringIsOnePiece(kind: char, body: string, terminator: string, rest: string)
    requires kind == ']' || kind == 'P' || kind == '_'
    requires terminator == ST || (kind == ']' && terminator == [BEL])
    requires NoEnd(body, kind == ']')
    ensures OnePiece([ESC, kind] + body + terminator, rest)
  {
    var s := [ESC, kind] + body + terminator;
    StringEnds(kind, body, terminator);
    forall k | 1 <= k < |s| ensures IsCompleteSequence(s[..k]) == Incomplete {
      StringNotYet(kind, body, terminator, k);
    }
    hide IsCompleteSequence;
    CompleteIsOnePiece(s, rest);
  }

  lemma StringNotYet(kind: char, body: string, terminator: string, k: nat)
    requires kind == ']' || kind == 'P' || kind == '_'
    requires terminator == ST || (kind == ']' && terminator == [BEL])
    requires NoEnd(body, kind == ']') && 1 <= k < |body| + 2 + |terminator|
    ensures IsCompleteSequence(([ESC, kind] + body + terminator)[..k]) == Incomplete
  {
    hide IsCompleteSequence;
    var s := [ESC, kind] + body + terminator;
    if k == 1 {
      assert s[..1] == [ESC];
      ShortCsi();
    } else if k <= |body| + 2 {
      assert s[..k] == [ESC, kind] + body[..k - 2];
      NoEndPrefix(body, kind == ']', k - 2);
      StringPrefix(kind, body[..k - 2]);
    } else {
      assert s[..k] == [ESC, kind] + (body + [ESC]);
      StringPrefix(kind, body + [ESC]);
    }
  }
}
