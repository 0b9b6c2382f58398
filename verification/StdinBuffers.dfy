/** Splitting terminal input, which arrives in arbitrary chunks, into complete escape sequences,
    single characters and bracketed pastes (ECMA-48 sections 5.4 and 5.6). */
module StdinBuffers {
  import opened Text

  const ESC: char := '\U{001B}'
  const BEL: char := '\U{0007}'
  const PASTE_START: string := [ESC] + "[200~"
  const PASTE_END: string := [ESC] + "[201~"

  datatype Status = Complete | Incomplete | NotEscape

  function IsCompleteSequence(data: string): Status {
    if !StartsWith(data, [ESC]) then NotEscape
    else if |data| == 1 then Incomplete
    else if data[1] == '[' then
      if StartsWith(data[1..], "[M") then (if |data| >= 6 then Complete else Incomplete)
      else IsCompleteCsi(data)
    else if data[1] == ']' then
      if EndsWith(data, [ESC, '\\']) || EndsWith(data, [BEL]) then Complete else Incomplete
    else if data[1] == 'P' || data[1] == '_' then
      if EndsWith(data, [ESC, '\\']) then Complete else Incomplete
    else if data[1] == 'O' then
      if |data| >= 3 then Complete else Incomplete
    else Complete
  }

  /** A control sequence ends at a final byte; a mouse report also needs its three numbers. */
  function IsCompleteCsi(data: string): Status {
    if |data| < 3 then Incomplete
    else
      var payload := data[2..];
      var lastChar := payload[|payload| - 1];
      if !(0x40 <= lastChar as int <= 0x7e) then Incomplete
      else if payload[0] != '<' then Complete
      else if SgrMouse(payload) then Complete
      else Incomplete
  }

  predicate SgrMouse(payload: string) {
    && |payload| >= 2
    && payload[|payload| - 1] in "Mm"
    && var parts := SplitOn(payload[1..|payload| - 1], ';');
       |parts| == 3 && forall p :: p in parts ==> p != "" && Digits(p)
  }

  /** Length of the shortest prefix of at least `from` characters that is not incomplete. */
  function FirstComplete(data: string, from: nat): (end: Option<nat>)
    ensures end.Some? ==> from <= end.value <= |data| && IsCompleteSequence(data[..end.value]) != Incomplete
    ensures forall k :: from <= k <= |data| && (end.None? || k < end.value) ==>
              IsCompleteSequence(data[..k]) == Incomplete
    decreases |data| + 1 - from
  {
    if from > |data| then None
    else if IsCompleteSequence(data[..from]) != Incomplete then Some(from)
    else FirstComplete(data, from + 1)
  }

  predicate OpensSequence(c: char) {
    c in "[]OP_"
  }

  /** Length of the first piece of the input, if it is complete. Two escapes are one piece unless the
      second one opens a sequence. */
  function FirstPiece(data: string): (length: Option<nat>)
    requires data != ""
    ensures length.Some? ==> 0 < length.value <= |data|
    ensures length.None? ==> data[0] == ESC
  {
    if data[0] != ESC then Some(1)
    else
      match FirstComplete(data, 1)
      case None => None
      case Some(end) =>
        if data[..end] == [ESC, ESC] && end < |data| && OpensSequence(data[end]) then Some(1) else Some(end)
  }

  datatype Pieces = Pieces(sequences: seq<string>, remainder: string)

  function Split(data: string): Pieces {
    if data == "" then Pieces([], "")
    else
      match FirstPiece(data)
      case None => Pieces([], data)
      case Some(length) =>
        var rest := Split(data[length..]);
        Pieces([data[..length]] + rest.sequences, rest.remainder)
  }

  /** Lengthens the candidate until it is complete. */
  method ExtractPiece(remaining: string) returns (length: Option<nat>)
    requires remaining != ""
    ensures length == FirstPiece(remaining)
  {
    hide IsCompleteSequence;
    if remaining[0] != ESC {
      return Some(1);
    }
    var seqEnd := 1;
    while seqEnd <= |remaining|
      invariant 1 <= seqEnd <= |remaining| + 1
      invariant FirstComplete(remaining, 1) == FirstComplete(remaining, seqEnd)
    {
      var candidate := remaining[..seqEnd];
      if IsCompleteSequence(candidate) == Incomplete {
        seqEnd := seqEnd + 1;
      } else if candidate == [ESC, ESC] && seqEnd < |remaining| && OpensSequence(remaining[seqEnd]) {
        return Some(1);
      } else {
        return Some(seqEnd);
      }
    }
    length := None;
  }

  lemma SplitStep(data: string)
    ensures data == "" ==> Split(data) == Pieces([], "")
    ensures data != "" ==>
              match FirstPiece(data)
              case None => Split(data) == Pieces([], data)
              case Some(length) =>
                var rest := Split(data[length..]);
                Split(data) == Pieces([data[..length]] + rest.sequences, rest.remainder)
  {
  }

  method ExtractCompleteSequences(buffer: string) returns (result: Pieces)
    ensures result == Split(buffer)
  {
    hide Split, FirstPiece;
    var sequences: seq<string> := [];
    var pos := 0;
    while pos < |buffer|
      invariant 0 <= pos <= |buffer|
      invariant var rest := Split(buffer[pos..]);
                Split(buffer) == Pieces(sequences + rest.sequences, rest.remainder)
    {
      SplitStep(buffer[pos..]);
      var length := ExtractPiece(buffer[pos..]);
      if length.None? {
        return Pieces(sequences, buffer[pos..]);
      }
      assert buffer[pos..][length.value..] == buffer[pos + length.value..];
      sequences := sequences + [buffer[pos..][..length.value]];
      pos := pos + length.value;
    }
    SplitStep(buffer[pos..]);
    result := Pieces(sequences, "");
  }

  /** No character is lost, and what is held back is an escape sequence that is not complete yet. */
  lemma {:induction false} SplitIsLossless(data: string)
    ensures var p := Split(data);
            && Flatten(p.sequences) + p.remainder == data
            && (forall s :: s in p.sequences ==> s != "")
            && (p.remainder == "" ||
                (p.remainder[0] == ESC &&
                 forall k :: 1 <= k <= |p.remainder| ==> IsCompleteSequence(p.remainder[..k]) == Incomplete))
  {
    if data != "" {
      if FirstPiece(data).Some? {
        var length := FirstPiece(data).value;
        SplitIsLossless(data[length..]);
        PieceIsLossless(data, length);
      } else {
        HeldBack(data);
      }
    }
  }

  lemma PieceIsLossless(data: string, length: nat)
    requires data != "" && FirstPiece(data) == Some(length)
    requires var rest := Split(data[length..]); Flatten(rest.sequences) + rest.remainder == data[length..]
    ensures Flatten(Split(data).sequences) + Split(data).remainder == data
  {
    hide FirstPiece, Flatten;
    var rest := Split(data[length..]);
    FlattenCons(data[..length], rest.sequences);
    assert data[..length] + Flatten(rest.sequences) + rest.remainder
        == data[..length] + (Flatten(rest.sequences) + rest.remainder);
  }

  lemma HeldBack(data: string)
    requires data != "" && FirstPiece(data).None?
    ensures data[0] == ESC && forall k :: 1 <= k <= |data| ==> IsCompleteSequence(data[..k]) == Incomplete
  {
    hide IsCompleteSequence;
  }

  /** The one cut that changes the split: two escapes at the end of the first part were taken as one
      piece, and the second part shows that the second escape opens a sequence. */
  predicate CutAfterTwoEscapes(first: Pieces, b: string) {
    && first.remainder == "" && first.sequences != [] && first.sequences[|first.sequences| - 1] == [ESC, ESC]
    && b != "" && OpensSequence(b[0])
  }

  /** How the pieces of the first part and the second part relate to the pieces of the whole. */
  predicate Rejoins(first: Pieces, b: string, whole: Pieces) {
    if CutAfterTwoEscapes(first, b) then
      var n := |first.sequences| - 1;
      n < |whole.sequences| && whole.sequences[..n] == first.sequences[..n] && whole.sequences[n] == [ESC]
    else
      var rest := Split(first.remainder + b);
      whole == Pieces(first.sequences + rest.sequences, rest.remainder)
  }

  lemma FirstCompleteExtends(a: string, b: string, from: nat)
    requires FirstComplete(a, from).Some?
    ensures FirstComplete(a + b, from) == FirstComplete(a, from)
    decreases |a| + 1 - from
  {
    assert (a + b)[..from] == a[..from];
    if IsCompleteSequence(a[..from]) == Incomplete {
      FirstCompleteExtends(a, b, from + 1);
    }
  }

  lemma TwoEscapesAreOnePiece()
    ensures FirstPiece([ESC, ESC]) == Some(2)
    ensures Split([ESC, ESC]) == Pieces([[ESC, ESC]], "")
  {
    assert [ESC, ESC][..1] == [ESC] && [ESC, ESC][..2] == [ESC, ESC] && [ESC, ESC][2..] == "";
    assert FirstComplete([ESC, ESC], 1) == FirstComplete([ESC, ESC], 2) == Some(2);
  }

  lemma FirstPieceExtends(a: string, b: string)
    requires a != "" && FirstPiece(a).Some?
    ensures FirstPiece(a + b) ==
            if a == [ESC, ESC] && b != "" && OpensSequence(b[0]) then Some(1) else FirstPiece(a)
  {
    TwoEscapesAreOnePiece();
    hide IsCompleteSequence;
    if a[0] == ESC {
      FirstCompleteExtends(a, b, 1);
      var end := FirstComplete(a, 1).value;
      assert (a + b)[..end] == a[..end];
      if a[..end] == [ESC, ESC] && end == |a| {
        assert a == [ESC, ESC];
      }
    }
  }

  /** Splitting the parts of a cut input one after the other gives the split of the whole, except at
      that one cut, where it never does. */
  lemma {:induction false} SplitOfParts(a: string, b: string)
    ensures Rejoins(Split(a), b, Split(a + b))
    decreases |a|
  {
    hide FirstComplete, IsCompleteSequence, Rejoins, OpensSequence;
    if a == "" || FirstPiece(a).None? {
      JoinNothing(a, b);
    } else {
      FirstPieceExtends(a, b);
      hide FirstPiece;
      var length := FirstPiece(a).value;
      if a == [ESC, ESC] && b != "" && OpensSequence(b[0]) {
        JoinTwoEscapes(b);
      } else {
        assert (a + b)[..length] == a[..length];
        assert (a + b)[length..] == a[length..] + b;
        SplitOfParts(a[length..], b);
        OnlyEmptyHasNoPieces(a[length..]);
        assert a == a[..length] + a[length..];
        JoinAfterPiece(a[..length], Split(a[length..]), b, Split(a[length..] + b));
      }
    }
  }

  lemma JoinNothing(a: string, b: string)
    ensures Rejoins(Pieces([], a), b, Split(a + b))
  {
  }

  lemma JoinTwoEscapes(b: string)
    requires b != "" && OpensSequence(b[0])
    ensures Rejoins(Split([ESC, ESC]), b, Split([ESC, ESC] + b))
  {
    TwoEscapesAreOnePiece();
    FirstPieceExtends([ESC, ESC], b);
    assert ([ESC, ESC] + b)[..1] == [ESC];
  }

  lemma OnlyEmptyHasNoPieces(data: string)
    ensures Split(data) == Pieces([], "") ==> data == ""
  {
  }

  lemma JoinAfterPiece(piece: string, first: Pieces, b: string, whole: Pieces)
    requires Rejoins(first, b, whole)
    requires first == Pieces([], "") && piece == [ESC, ESC] && b != "" ==> !OpensSequence(b[0])
    ensures Rejoins(Pieces([piece] + first.sequences, first.remainder), b,
                   Pieces([piece] + whole.sequences, whole.remainder))
  {
    var longer := Pieces([piece] + first.sequences, first.remainder);
    if CutAfterTwoEscapes(first, b) {
      var n := |first.sequences| - 1;
      assert ([piece] + whole.sequences)[..n + 1] == [piece] + whole.sequences[..n];
      assert ([piece] + first.sequences)[..n + 1] == [piece] + first.sequences[..n];
    } else {
      var rest := Split(first.remainder + b);
      assert [piece] + (first.sequences + rest.sequences) == [piece] + first.sequences + rest.sequences;
    }
  }

  /** The split into pieces is the same for both parts and for the whole exactly when the cut is not
      between two escapes and the sequence that the second one opens. */
  lemma SplitOfPartsIff(a: string, b: string)
    ensures var first, whole := Split(a), Split(a + b);
            var rest := Split(first.remainder + b);
            whole == Pieces(first.sequences + rest.sequences, rest.remainder) <==> !CutAfterTwoEscapes(first, b)
  {
    SplitOfParts(a, b);
    var first, whole := Split(a), Split(a + b);
    if CutAfterTwoEscapes(first, b) {
      var n := |first.sequences| - 1;
      assert (first.sequences + Split(first.remainder + b).sequences)[n] == [ESC, ESC] != whole.sequences[n];
    }
  }
}
