/** The events emitted for terminal input: complete sequences, and bracketed pastes as one event each. */
module StdinEvents {
  import opened StdinBuffers
  import opened Text

  datatype Event = Data(sequence: string) | Paste(content: string)

  /** `pending` is the code point that the last sequence reported; the same character, if it comes
      next, repeats that key press and is dropped. */
  datatype State = State(buffer: string, pasteMode: bool, pasteBuffer: string, pending: Option<int>) {
    predicate Valid() {
      pending.Some? ==> pending.value >= 32
    }
  }

  datatype Output = Output(state: State, events: seq<Event>)

  datatype Emission = Emission(pending: Option<int>, events: seq<Event>)

  function Idle(pending: Option<int>): State {
    State("", false, "", pending)
  }

  /** The code point of a key report `ESC [ code : shifted : base u` without modifiers. */
  function KittyCodepoint(sequence: string): (code: Option<int>)
    ensures code.Some? ==> code.value >= 32
  {
    if !StartsWith(sequence, [ESC, '[']) || !EndsWith(sequence, "u") || |sequence| < 3 then None
    else
      var parts := SplitOn(sequence[2..|sequence| - 1], ':');
      if (forall p :: p in parts ==> Digits(p)) && parts[0] != ""
         && (|parts| <= 2 || (|parts| == 3 && parts[2] != "")) && Decimal(parts[0]) >= 32
      then Some(Decimal(parts[0])) else None
  }

  function Emit(pending: Option<int>, sequence: string): Emission {
    if |sequence| == 1 && pending == Some(sequence[0] as int) then Emission(None, [])
    else Emission(KittyCodepoint(sequence), [Data(sequence)])
  }

  function EmitAll(pending: Option<int>, sequences: seq<string>): (e: Emission)
    ensures (pending.Some? ==> pending.value >= 32) ==> (e.pending.Some? ==> e.pending.value >= 32)
  {
    if sequences == [] then Emission(pending, [])
    else
      var before := EmitAll(pending, sequences[..|sequences| - 1]);
      var last := Emit(before.pending, sequences[|sequences| - 1]);
      Emission(last.pending, before.events + last.events)
  }

  /** Parts with a colon between any two. */
  function Colons(parts: seq<string>): string
    requires parts != []
  {
    if |parts| == 1 then parts[0] else parts[0] + ":" + Colons(parts[1..])
  }

  /** The numbers in a report: the code point, the shifted key, which may be missing, and the base key. */
  predicate KeyNumbers(parts: seq<string>) {
    && 1 <= |parts| <= 3 && (forall k :: 0 <= k < |parts| ==> Digits(parts[k]))
    && parts[0] != "" && (|parts| == 3 ==> parts[2] != "")
  }

  /** The report of a key without modifiers. */
  function Report(parts: seq<string>): string
    requires parts != []
  {
    [ESC, '['] + Colons(parts) + "u"
  }

  lemma {:induction false} SplitColons(parts: seq<string>)
    requires parts != [] && forall k :: 0 <= k < |parts| ==> Digits(parts[k])
    ensures SplitOn(Colons(parts), ':') == parts
  {
    hide SplitOn, Digits;
    SplitPart(parts[0], ':');
    if |parts| > 1 {
      SplitFirst(parts[0], ':', Colons(parts[1..]));
      SplitColons(parts[1..]);
      assert [parts[0]] + parts[1..] == parts;
    } else {
      assert parts == [parts[0]];
    }
  }

  lemma {:induction false} ColonsOfSplit(s: string)
    ensures Colons(SplitOn(s, ':')) == s
  {
    if s != "" {
      var rest := SplitOn(s[1..], ':');
      ColonsOfSplit(s[1..]);
      assert [s[0]] + s[1..] == s;
      if s[0] == ':' {
        assert ([""] + rest)[1..] == rest && "" + ":" + Colons(rest) == s;
      } else {
        assert ([[s[0]] + rest[0]] + rest[1..])[1..] == rest[1..];
        if |rest| > 1 {
          assert [s[0]] + rest[0] + ":" + Colons(rest[1..]) == [s[0]] + (rest[0] + ":" + Colons(rest[1..]));
        }
      }
    }
  }

  /** The code point of a report is the first number in it, unless it is a control character. */
  lemma ReportReadsBack(parts: seq<string>)
    requires KeyNumbers(parts)
    ensures KittyCodepoint(Report(parts)) == if Decimal(parts[0]) >= 32 then Some(Decimal(parts[0])) else None
  {
    hide SplitOn, Decimal, Colons;
    var s := Report(parts);
    assert s[2..|s| - 1] == Colons(parts) && s[..2] == [ESC, '['] && s[|s| - 1..] == "u";
    SplitColons(parts);
  }

  /** Nothing else is a report. */
  lemma OnlyReports(s: string) returns (parts: seq<string>)
    requires KittyCodepoint(s).Some?
    ensures KeyNumbers(parts) && s == Report(parts)
  {
    hide SplitOn, Decimal, Colons;
    var text := s[2..|s| - 1];
    parts := SplitOn(text, ':');
    ColonsOfSplit(text);
    assert s[..2] == [ESC, '['] && s[|s| - 1..] == "u" && s == s[..2] + text + s[|s| - 1..];
  }

  /** A terminal that sends a key both ways, as a report and as the character, gives one event. */
  lemma KeyIsNotRepeated(pending: Option<int>, parts: seq<string>, c: char)
    requires KeyNumbers(parts) && Decimal(parts[0]) == c as int >= 32
    ensures EmitAll(pending, [Report(parts), [c]]) == Emission(None, [Data(Report(parts))])
  {
    hide KittyCodepoint, Decimal, Colons;
    ReportReadsBack(parts);
    var both := [Report(parts), [c]];
    assert both[..1] == [Report(parts)] && both[..1][..0] == [];
    assert EmitAll(pending, both[..1]) == Emission(Some(c as int), [Data(Report(parts))]);
  }

  /** Whether piece number `k` only repeats the key that the piece before it reported. */
  predicate Repeats(pending: Option<int>, pieces: seq<string>, k: nat)
    requires k < |pieces|
  {
    |pieces[k]| == 1 && (if k == 0 then pending else KittyCodepoint(pieces[k - 1])) == Some(pieces[k][0] as int)
  }

  /** What is pending is what the last piece reported. */
  lemma PendingIsLast(pending: Option<int>, pieces: seq<string>)
    requires pieces != []
    ensures EmitAll(pending, pieces).pending == KittyCodepoint(pieces[|pieces| - 1])
  {
    hide Decimal, SplitOn;
  }

  lemma EmitNext(pending: Option<int>, pieces: seq<string>, k: nat)
    requires k < |pieces|
    ensures var before := EmitAll(pending, pieces[..k]);
            var last := Emit(before.pending, pieces[k]);
            EmitAll(pending, pieces[..k + 1]) == Emission(last.pending, before.events + last.events)
  {
    hide Emit;
    assert pieces[..k + 1][..k] == pieces[..k];
  }

  /** Every piece is an event of its own, in order, unless it only repeats a key. */
  lemma EachPieceIsEmitted(pending: Option<int>, pieces: seq<string>, k: nat)
    requires k < |pieces|
    ensures EmitAll(pending, pieces[..k + 1]).events
         == EmitAll(pending, pieces[..k]).events + if Repeats(pending, pieces, k) then [] else [Data(pieces[k])]
  {
    hide KittyCodepoint, EmitAll;
    EmitNext(pending, pieces, k);
    if k > 0 {
      PendingIsLast(pending, pieces[..k]);
    } else {
      NothingEmitted(pending);
      assert pieces[..0] == [];
    }
    var events := EmitAll(pending, pieces[..k]).events;
    assert events + [] == events;
  }

  lemma NothingEmitted(pending: Option<int>)
    ensures EmitAll(pending, []) == Emission(pending, [])
  {
  }

  /** What one chunk of input does. */
  function Process(st: State, chunk: string): Output
    decreases |st.buffer| + |st.pasteBuffer| + |chunk|, 1
  {
    if chunk == "" && st.buffer == "" then
      var e := Emit(st.pending, "");
      Output(st.(pending := e.pending), e.events)
    else
      var buffer := st.buffer + chunk;
      if st.pasteMode then
        TakePaste(st.(buffer := "", pasteBuffer := st.pasteBuffer + buffer))
      else
        match IndexOf(buffer, PASTE_START)
        case Some(start) => BeginPaste(st.(buffer := buffer), start)
        case None =>
          var pieces := Split(buffer);
          var e := EmitAll(st.pending, pieces.sequences);
          Output(st.(buffer := pieces.remainder, pending := e.pending), e.events)
  }

  /** At a paste start: emits what precedes it and keeps what follows as pasted text. */
  function BeginPaste(st: State, start: nat): Output
    requires !st.pasteMode && start + |PASTE_START| <= |st.buffer|
    decreases |st.buffer|, 0
  {
    var before := EmitAll(st.pending, Split(st.buffer[..start]).sequences);
    var rest := TakePaste(State("", true, st.buffer[start + |PASTE_START|..], None));
    Output(rest.state, before.events + rest.events)
  }

  /** In paste mode: emits the paste if its end has arrived, then processes what follows it. */
  function TakePaste(st: State): Output
    requires st.pasteMode && st.buffer == ""
    decreases |st.pasteBuffer|, 0
  {
    match IndexOf(st.pasteBuffer, PASTE_END)
    case None => Output(st, [])
    case Some(end) =>
      var remaining := st.pasteBuffer[end + |PASTE_END|..];
      var rest := if |remaining| > 0 then Process(Idle(None), remaining) else Output(Idle(None), []);
      Output(rest.state, [Paste(st.pasteBuffer[..end])] + rest.events)
  }

  function ProcessAll(st: State, chunks: seq<string>): Output {
    if chunks == [] then Output(st, [])
    else
      var before := ProcessAll(st, chunks[..|chunks| - 1]);
      var last := Process(before.state, chunks[|chunks| - 1]);
      Output(last.state, before.events + last.events)
  }

  lemma NothingBefore(buffer: string, pending: Option<int>)
    ensures EmitAll(pending, Split(buffer[..0]).sequences) == Emission(pending, [])
  {
  }

  class StdinBuffer {
    var buffer: string
    var pasteMode: bool
    var pasteBuffer: string
    var pendingKittyPrintableCodepoint: Option<int>
    var emitted: seq<Event>

    function Now(): State
      reads this
    {
      State(buffer, pasteMode, pasteBuffer, pendingKittyPrintableCodepoint)
    }

    constructor ()
      ensures Now() == Idle(None) && emitted == []
    {
      buffer, pasteMode, pasteBuffer, pendingKittyPrintableCodepoint, emitted := "", false, "", None, [];
    }

    method EmitDataSequence(sequence: string)
      modifies this
      ensures var e := Emit(old(pendingKittyPrintableCodepoint), sequence);
              Now() == old(Now()).(pending := e.pending) && emitted == old(emitted) + e.events
    {
      if |sequence| == 1 && pendingKittyPrintableCodepoint == Some(sequence[0] as int) {
        pendingKittyPrintableCodepoint := None;
        return;
      }
      pendingKittyPrintableCodepoint := KittyCodepoint(sequence);
      emitted := emitted + [Data(sequence)];
    }

    method EmitSequences(sequences: seq<string>)
      modifies this
      ensures var e := EmitAll(old(pendingKittyPrintableCodepoint), sequences);
              Now() == old(Now()).(pending := e.pending) && emitted == old(emitted) + e.events
    {
      var i := 0;
      while i < |sequences|
        invariant 0 <= i <= |sequences|
        invariant var e := EmitAll(old(pendingKittyPrintableCodepoint), sequences[..i]);
                  Now() == old(Now()).(pending := e.pending) && emitted == old(emitted) + e.events
      {
        assert sequences[..i + 1][..i] == sequences[..i];
        EmitDataSequence(sequences[i]);
        i := i + 1;
      }
      assert sequences[..|sequences|] == sequences;
    }

    method ProcessChunk(chunk: string)
      modifies this
      ensures var out := Process(old(Now()), chunk);
              Now() == out.state && emitted == old(emitted) + out.events
      decreases |buffer| + |pasteBuffer| + |chunk|, 1
    {
      hide Split, EmitAll, IndexOf, Emit;
      if |chunk| == 0 && |buffer| == 0 {
        EmitDataSequence("");
        return;
      }
      buffer := buffer + chunk;
      if pasteMode {
        pasteBuffer := pasteBuffer + buffer;
        buffer := "";
        EndPaste();
        return;
      }
      var startIndex := IndexOf(buffer, PASTE_START);
      if startIndex.Some? {
        StartPaste(startIndex.value);
        return;
      }
      var result := ExtractCompleteSequences(buffer);
      buffer := result.remainder;
      EmitSequences(result.sequences);
    }

    method StartPaste(startIndex: nat)
      requires !pasteMode && startIndex + |PASTE_START| <= |buffer|
      modifies this
      ensures var out := BeginPaste(old(Now()), startIndex);
              Now() == out.state && emitted == old(emitted) + out.events
      decreases |buffer|, 0
    {
      hide Split, EmitAll, TakePaste;
      if startIndex > 0 {
        var result := ExtractCompleteSequences(buffer[..startIndex]);
        EmitSequences(result.sequences);
      } else {
        NothingBefore(buffer, pendingKittyPrintableCodepoint);
      }
      pendingKittyPrintableCodepoint := None;
      pasteBuffer := buffer[startIndex + |PASTE_START|..];
      buffer, pasteMode := "", true;
      EndPaste();
    }

    method EndPaste()
      requires pasteMode && buffer == ""
      modifies this
      ensures var out := TakePaste(old(Now()));
              Now() == out.state && emitted == old(emitted) + out.events
      decreases |buffer| + |pasteBuffer|, 0
    {
      hide Process, IndexOf;
      var endIndex := IndexOf(pasteBuffer, PASTE_END);
      if endIndex.Some? {
        var pastedContent := pasteBuffer[..endIndex.value];
        var remaining := pasteBuffer[endIndex.value + |PASTE_END|..];
        pasteMode, pasteBuffer, pendingKittyPrintableCodepoint := false, "", None;
        emitted := emitted + [Paste(pastedContent)];
        if |remaining| > 0 {
          ProcessChunk(remaining);
        }
      }
    }
  }
}
