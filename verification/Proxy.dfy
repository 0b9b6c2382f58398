/** Rebuilding an assistant message from the events of a proxy that leaves the message itself out. */
module Proxy {
  import opened Framing
  import opened Text

  datatype Json = Json(text: string)

  const EMPTY_OBJECT := Json("{}")

  datatype Block =
    | TextBlock(text: string, textSignature: Option<string>)
    | ThinkingBlock(thinking: string, thinkingSignature: Option<string>)
    | ToolCallBlock(id: string, name: string, arguments: Json, partialJson: Option<string>)

  datatype Message = Message(content: map<nat, Block>, stopReason: string, errorMessage: Option<string>, usage: nat)

  const EMPTY := Message(map[], "stop", None, 0)

  datatype Event =
    | Start
    | TextStart(i: nat)
    | TextDelta(i: nat, delta: string)
    | TextEnd(i: nat, signature: Option<string>)
    | ThinkingStart(i: nat)
    | ThinkingDelta(i: nat, delta: string)
    | ThinkingEnd(i: nat, signature: Option<string>)
    | ToolCallStart(i: nat, id: string, name: string)
    | ToolCallDelta(i: nat, delta: string)
    | ToolCallEnd(i: nat)
    | Done(reason: string, usage: nat)
    | Error(reason: string, errorMessage: Option<string>, usage: nat)

  /** What the client's stream is given for an event; it carries the whole text or call at an end. */
  datatype Emitted =
    | Announced(event: Event)
    | TextComplete(i: nat, content: string)
    | ThinkingComplete(i: nat, content: string)
    | ToolCallComplete(i: nat, toolCall: Block)

  datatype Edit = Edited(block: Option<Block>, emitted: Option<Emitted>) | Refused(error: string)

  predicate Indexed(e: Event) {
    !e.Start? && !e.Done? && !e.Error?
  }

  /** What an event does to the block at its index. A finished call has lost its partial JSON, and a late
      delta is appended to the word the language prints for that. */
  function EditBlock(b: Option<Block>, e: Event, parse: string -> Json): Edit
    requires Indexed(e)
  {
    match e
    case TextStart(_) => Edited(Some(TextBlock("", None)), Some(Announced(e)))
    case TextDelta(_, delta) =>
      if b.Some? && b.value.TextBlock? then Edited(Some(b.value.(text := b.value.text + delta)), Some(Announced(e)))
      else Refused("Received text_delta for non-text content")
    case TextEnd(i, signature) =>
      if b.Some? && b.value.TextBlock? then
        Edited(Some(b.value.(textSignature := signature)), Some(TextComplete(i, b.value.text)))
      else Refused("Received text_end for non-text content")
    case ThinkingStart(_) => Edited(Some(ThinkingBlock("", None)), Some(Announced(e)))
    case ThinkingDelta(_, delta) =>
      if b.Some? && b.value.ThinkingBlock? then
        Edited(Some(b.value.(thinking := b.value.thinking + delta)), Some(Announced(e)))
      else Refused("Received thinking_delta for non-thinking content")
    case ThinkingEnd(i, signature) =>
      if b.Some? && b.value.ThinkingBlock? then
        Edited(Some(b.value.(thinkingSignature := signature)), Some(ThinkingComplete(i, b.value.thinking)))
      else Refused("Received thinking_end for non-thinking content")
    case ToolCallStart(_, id, name) =>
      Edited(Some(ToolCallBlock(id, name, EMPTY_OBJECT, Some(""))), Some(Announced(e)))
    case ToolCallDelta(_, delta) =>
      if b.Some? && b.value.ToolCallBlock? then
        var partial := (if b.value.partialJson.Some? then b.value.partialJson.value else "undefined") + delta;
        Edited(Some(b.value.(partialJson := Some(partial), arguments := parse(partial))), Some(Announced(e)))
      else Refused("Received toolcall_delta for non-toolCall content")
    case ToolCallEnd(i) =>
      if b.Some? && b.value.ToolCallBlock? then
        var call := b.value.(partialJson := None);
        Edited(Some(call), Some(ToolCallComplete(i, call)))
      else Edited(b, None)
  }

  function At(content: map<nat, Block>, i: nat): Option<Block> {
    if i in content then Some(content[i]) else None
  }

  function Put(content: map<nat, Block>, i: nat, b: Option<Block>): map<nat, Block> {
    if b.Some? then content[i := b.value] else content
  }

  /** The message so far, what was passed on, and the error that ended the reading, if any. */
  datatype Reading = Reading(message: Message, emitted: seq<Emitted>, error: Option<string>)

  const NOTHING_READ := Reading(EMPTY, [], None)

  function Process(r: Reading, e: Event, parse: string -> Json): Reading {
    if r.error.Some? then r
    else if e.Start? then r.(emitted := r.emitted + [Announced(e)])
    else if e.Done? then
      Reading(r.message.(stopReason := e.reason, usage := e.usage), r.emitted + [Announced(e)], None)
    else if e.Error? then
      Reading(r.message.(stopReason := e.reason, errorMessage := e.errorMessage, usage := e.usage),
              r.emitted + [Announced(e)], None)
    else
      match EditBlock(At(r.message.content, e.i), e, parse)
      case Refused(error) => r.(error := Some(error))
      case Edited(b, emitted) =>
        Reading(r.message.(content := Put(r.message.content, e.i, b)),
                Passing(r.emitted, emitted), None)
  }

  function Read(r: Reading, events: seq<Event>, parse: string -> Json): Reading {
    if events == [] then r
    else Process(Read(r, events[..|events| - 1], parse), events[|events| - 1], parse)
  }

  // Each block by itself.

  /** The events at one index, in order. */
  function Own(events: seq<Event>, i: nat): seq<Event>
    ensures forall k :: 0 <= k < |Own(events, i)| ==> Indexed(Own(events, i)[k]) && Own(events, i)[k].i == i
  {
    if events == [] then []
    else
      var e := events[|events| - 1];
      Own(events[..|events| - 1], i) + (if Indexed(e) && e.i == i then [e] else [])
  }

  predicate AllIndexed(events: seq<Event>) {
    forall k :: 0 <= k < |events| ==> Indexed(events[k])
  }

  datatype Fate = Good(block: Option<Block>) | Bad

  /** The block that a list of events makes, starting from none; bad once an event does not fit. */
  function Fold(own: seq<Event>, parse: string -> Json): Fate
    requires AllIndexed(own)
  {
    if own == [] then Good(None)
    else
      match Fold(own[..|own| - 1], parse)
      case Bad => Bad
      case Good(b) =>
        match EditBlock(b, own[|own| - 1], parse)
        case Refused(_) => Bad
        case Edited(c, _) => Good(c)
  }

  lemma OwnPush(events: seq<Event>, e: Event, i: nat)
    ensures Own(events + [e], i) == if Indexed(e) && e.i == i then Own(events, i) + [e] else Own(events, i)
  {
    assert (events + [e])[..|events|] == events;
    assert Own(events, i) + [] == Own(events, i);
  }

  lemma FoldPush(own: seq<Event>, e: Event, parse: string -> Json)
    requires AllIndexed(own) && Indexed(e)
    ensures Fold(own + [e], parse)
         == if Fold(own, parse).Bad? then Bad
            else match EditBlock(Fold(own, parse).block, e, parse)
                 case Refused(_) => Bad
                 case Edited(c, _) => Good(c)
  {
    assert (own + [e])[..|own|] == own;
  }

  /** An event changes the block at its index only, and nothing if it is refused. */
  lemma ProcessAt(r: Reading, e: Event, i: nat, parse: string -> Json)
    requires r.error.None?
    ensures !Indexed(e) || e.i != i ==> At(Process(r, e, parse).message.content, i) == At(r.message.content, i)
    ensures !Indexed(e) ==> Process(r, e, parse).error.None?
    ensures Indexed(e) ==>
      var b := EditBlock(At(r.message.content, e.i), e, parse);
      var t := Process(r, e, parse);
      && (t.error.Some? <==> b.Refused?)
      && (b.Edited? ==> At(t.message.content, e.i) == b.block)
  {
  }

  ghost predicate AllGood(events: seq<Event>, parse: string -> Json) {
    forall i: nat :: Fold(Own(events, i), parse).Good?
  }

  /** Blocks do not influence one another, whatever the stream: it is read without an error exactly if
      the events of each index fit together, and then each block is what its own events make. */
  lemma {:induction false} BlocksAreIndependent(events: seq<Event>, parse: string -> Json)
    ensures Read(NOTHING_READ, events, parse).error.None? <==> AllGood(events, parse)
    ensures AllGood(events, parse) ==>
      forall i: nat :: At(Read(NOTHING_READ, events, parse).message.content, i) == Fold(Own(events, i), parse).block
  {
    if events != [] {
      var front, e := events[..|events| - 1], events[|events| - 1];
      assert events == front + [e];
      BlocksAreIndependent(front, parse);
      if AllGood(front, parse) {
        OneMoreEvent(front, e, parse);
      } else {
        var i: nat :| Fold(Own(front, i), parse).Bad?;
        OwnPush(front, e, i);
        if Indexed(e) && e.i == i { FoldPush(Own(front, i), e, parse); }
        assert Fold(Own(events, i), parse).Bad?;
      }
    }
  }

  lemma OneMoreEvent(front: seq<Event>, e: Event, parse: string -> Json)
    requires AllGood(front, parse) && Read(NOTHING_READ, front, parse).error.None?
    requires forall i: nat ::
               At(Read(NOTHING_READ, front, parse).message.content, i) == Fold(Own(front, i), parse).block
    ensures Process(Read(NOTHING_READ, front, parse), e, parse).error.None? <==> AllGood(front + [e], parse)
    ensures AllGood(front + [e], parse) ==>
      forall i: nat :: At(Process(Read(NOTHING_READ, front, parse), e, parse).message.content, i)
                    == Fold(Own(front + [e], i), parse).block
  {
    hide Process, Fold, Own, EditBlock, Read, At, AllGood;
    var r := Read(NOTHING_READ, front, parse);
    forall i: nat
      ensures Fold(Own(front + [e], i), parse).Good? <==> !(Indexed(e) && e.i == i && Process(r, e, parse).error.Some?)
      ensures Process(r, e, parse).error.None? ==>
                At(Process(r, e, parse).message.content, i) == Fold(Own(front + [e], i), parse).block
    {
      assert Fold(Own(front, i), parse).Good? by { GoodAt(front, i, parse); }
      OwnPush(front, e, i);
      ProcessAt(r, e, i, parse);
      if Indexed(e) && e.i == i { FoldPush(Own(front, i), e, parse); }
    }
    if Process(r, e, parse).error.Some? {
      ProcessAt(r, e, 0, parse);
      assert Fold(Own(front + [e], e.i), parse).Bad?;
      BadAt(front + [e], e.i, parse);
    } else {
      assert AllGood(front + [e], parse) by { AllGoodIf(front + [e], parse); }
    }
  }

  lemma GoodAt(events: seq<Event>, i: nat, parse: string -> Json)
    requires AllGood(events, parse)
    ensures Fold(Own(events, i), parse).Good?
  {
  }

  lemma BadAt(events: seq<Event>, i: nat, parse: string -> Json)
    requires Fold(Own(events, i), parse).Bad?
    ensures !AllGood(events, parse)
  {
  }

  lemma AllGoodIf(events: seq<Event>, parse: string -> Json)
    requires forall i: nat :: Fold(Own(events, i), parse).Good?
    ensures AllGood(events, parse)
  {
  }

  /** Events at different indices commute: in either order both are accepted or refused alike, with the
      same events passed on, and the same message results. */
  lemma EventsCommute(r: Reading, e: Event, f: Event, parse: string -> Json)
    requires r.error.None? && Indexed(e) && Indexed(f) && e.i != f.i
    ensures var ef, fe := Process(Process(r, e, parse), f, parse), Process(Process(r, f, parse), e, parse);
            && (ef.error.None? <==> fe.error.None?)
            && (ef.error.None? ==> ef.message == fe.message && multiset(ef.emitted) == multiset(fe.emitted))
  {
    hide EditBlock, Process, At, Put, Passing;
    var content := r.message.content;
    var b, c := EditBlock(At(content, e.i), e, parse), EditBlock(At(content, f.i), f, parse);
    Processed(r, e, parse);
    Processed(r, f, parse);
    if b.Edited? {
      PutElsewhere(content, e.i, f.i, b.block);
      Processed(Process(r, e, parse), f, parse);
    }
    if c.Edited? {
      PutElsewhere(content, f.i, e.i, c.block);
      Processed(Process(r, f, parse), e, parse);
    }
    if b.Edited? && c.Edited? {
      Swap(content, e.i, f.i, b.block, c.block);
      PassingSwaps(r.emitted, b.emitted, c.emitted);
    } else if b.Edited? {
      Processed(Process(r, f, parse), e, parse);
    } else {
      Processed(Process(r, e, parse), f, parse);
      Processed(Process(r, f, parse), e, parse);
    }
  }

  lemma PutElsewhere(content: map<nat, Block>, i: nat, j: nat, b: Option<Block>)
    requires i != j
    ensures At(Put(content, i, b), j) == At(content, j)
  {
  }

  lemma PassingSwaps(emitted: seq<Emitted>, a: Option<Emitted>, b: Option<Emitted>)
    ensures multiset(Passing(Passing(emitted, a), b)) == multiset(Passing(Passing(emitted, b), a))
  {
  }

  function Passing(emitted: seq<Emitted>, more: Option<Emitted>): seq<Emitted> {
    if more.Some? then emitted + [more.value] else emitted
  }

  lemma Processed(r: Reading, e: Event, parse: string -> Json)
    requires Indexed(e)
    ensures r.error.Some? ==> Process(r, e, parse) == r
    ensures r.error.None? ==>
      Process(r, e, parse) == match EditBlock(At(r.message.content, e.i), e, parse)
                              case Refused(error) => r.(error := Some(error))
                              case Edited(b, emitted) =>
                                Reading(r.message.(content := Put(r.message.content, e.i, b)),
                                    Passing(r.emitted, emitted), None)
  {
  }

  lemma Swap(content: map<nat, Block>, i: nat, j: nat, b: Option<Block>, c: Option<Block>)
    requires i != j
    ensures Put(Put(content, i, b), j, c) == Put(Put(content, j, c), i, b)
  {
  }

  // What a block's own events make of it.

  function TextDeltas(i: nat, deltas: seq<string>): (r: seq<Event>)
    ensures AllIndexed(r)
  {
    seq(|deltas|, k requires 0 <= k < |deltas| => TextDelta(i, deltas[k]))
  }

  function ThinkingDeltas(i: nat, deltas: seq<string>): (r: seq<Event>)
    ensures AllIndexed(r)
  {
    seq(|deltas|, k requires 0 <= k < |deltas| => ThinkingDelta(i, deltas[k]))
  }

  function ToolCallDeltas(i: nat, deltas: seq<string>): (r: seq<Event>)
    ensures AllIndexed(r)
  {
    seq(|deltas|, k requires 0 <= k < |deltas| => ToolCallDelta(i, deltas[k]))
  }

  /** A text block is the concatenation of the deltas since its last start, whatever was there before. */
  lemma {:induction false} TextIsItsDeltas(before: seq<Event>, i: nat, deltas: seq<string>, parse: string -> Json)
    requires AllIndexed(before) && Fold(before, parse).Good?
    ensures Fold(before + [TextStart(i)] + TextDeltas(i, deltas), parse) == Good(Some(TextBlock(Flatten(deltas), None)))
    decreases |deltas|
  {
    hide Fold;
    FoldPush(before, TextStart(i), parse);
    if deltas == [] {
      assert TextDeltas(i, deltas) == [];
      assert before + [TextStart(i)] + [] == before + [TextStart(i)];
    } else {
      var front := deltas[..|deltas| - 1];
      TextIsItsDeltas(before, i, front, parse);
      FoldPush(before + [TextStart(i)] + TextDeltas(i, front), TextDelta(i, deltas[|deltas| - 1]), parse);
      assert before + [TextStart(i)] + TextDeltas(i, deltas)
          == before + [TextStart(i)] + TextDeltas(i, front) + [TextDelta(i, deltas[|deltas| - 1])];
    }
  }

  lemma {:induction false} ThinkingIsItsDeltas(before: seq<Event>, i: nat, deltas: seq<string>, parse: string -> Json)
    requires AllIndexed(before) && Fold(before, parse).Good?
    ensures Fold(before + [ThinkingStart(i)] + ThinkingDeltas(i, deltas), parse)
         == Good(Some(ThinkingBlock(Flatten(deltas), None)))
    decreases |deltas|
  {
    hide Fold;
    FoldPush(before, ThinkingStart(i), parse);
    if deltas == [] {
      assert ThinkingDeltas(i, deltas) == [];
      assert before + [ThinkingStart(i)] + [] == before + [ThinkingStart(i)];
    } else {
      var front := deltas[..|deltas| - 1];
      ThinkingIsItsDeltas(before, i, front, parse);
      FoldPush(before + [ThinkingStart(i)] + ThinkingDeltas(i, front), ThinkingDelta(i, deltas[|deltas| - 1]), parse);
      assert before + [ThinkingStart(i)] + ThinkingDeltas(i, deltas)
          == before + [ThinkingStart(i)] + ThinkingDeltas(i, front) + [ThinkingDelta(i, deltas[|deltas| - 1])];
    }
  }

  /** A tool call's partial JSON is the concatenation of its deltas, and its arguments are the parse of it. */
  lemma {:induction false} ToolCallIsItsDeltas(before: seq<Event>, i: nat, id: string, name: string,
                                               deltas: seq<string>, parse: string -> Json)
    requires AllIndexed(before) && Fold(before, parse).Good?
    ensures Fold(before + [ToolCallStart(i, id, name)] + ToolCallDeltas(i, deltas), parse)
         == Good(Some(ToolCallBlock(id, name, if deltas == [] then EMPTY_OBJECT else parse(Flatten(deltas)),
                                    Some(Flatten(deltas)))))
    decreases |deltas|
  {
    hide Fold;
    var begun := before + [ToolCallStart(i, id, name)];
    FoldPush(before, ToolCallStart(i, id, name), parse);
    if deltas == [] {
      assert ToolCallDeltas(i, deltas) == [];
      assert begun + [] == begun;
    } else {
      var front := deltas[..|deltas| - 1];
      ToolCallIsItsDeltas(before, i, id, name, front, parse);
      FoldPush(begun + ToolCallDeltas(i, front), ToolCallDelta(i, deltas[|deltas| - 1]), parse);
      assert begun + ToolCallDeltas(i, deltas)
             == begun + ToolCallDeltas(i, front) + [ToolCallDelta(i, deltas[|deltas| - 1])];
    }
  }

  /** What an event does after the events before it. */
  function After(own: seq<Event>, e: Event, parse: string -> Json): Edit
    requires AllIndexed(own) && Indexed(e)
  {
    match Fold(own, parse)
    case Bad => Refused("")
    case Good(b) => EditBlock(b, e, parse)
  }

  /** An end event passes on the whole text, or the whole call without its partial JSON. */
  lemma EndsCarryTheWhole(before: seq<Event>, i: nat, id: string, name: string, deltas: seq<string>,
                          signature: Option<string>,
                          parse: string -> Json)
    requires AllIndexed(before) && Fold(before, parse).Good?
    ensures After(before + [TextStart(i)] + TextDeltas(i, deltas), TextEnd(i, signature), parse)
         == Edited(Some(TextBlock(Flatten(deltas), signature)), Some(TextComplete(i, Flatten(deltas))))
    ensures After(before + [ThinkingStart(i)] + ThinkingDeltas(i, deltas), ThinkingEnd(i, signature), parse)
         == Edited(Some(ThinkingBlock(Flatten(deltas), signature)), Some(ThinkingComplete(i, Flatten(deltas))))
    ensures After(before + [ToolCallStart(i, id, name)] + ToolCallDeltas(i, deltas), ToolCallEnd(i), parse)
         == Edited(Some(Finished(id, name, deltas, parse)),
                   Some(ToolCallComplete(i, Finished(id, name, deltas, parse))))
  {
    hide Fold, Flatten;
    TextIsItsDeltas(before, i, deltas, parse);
    ThinkingIsItsDeltas(before, i, deltas, parse);
    ToolCallIsItsDeltas(before, i, id, name, deltas, parse);
  }

  function Finished(id: string, name: string, deltas: seq<string>, parse: string -> Json): Block {
    ToolCallBlock(id, name, if deltas == [] then EMPTY_OBJECT else parse(Flatten(deltas)), None)
  }

  // Deltas and ends of a call in any order.

  /** Deltas and ends only. */
  predicate Tail(events: seq<Event>) {
    forall k :: 0 <= k < |events| ==> events[k].ToolCallDelta? || events[k].ToolCallEnd?
  }

  /** The deltas, one after the other. */
  function DeltasOf(events: seq<Event>): string
    requires Tail(events)
  {
    if events == [] then ""
    else
      var e, front := events[|events| - 1], events[..|events| - 1];
      if e.ToolCallDelta? then DeltasOf(front) + e.delta else DeltasOf(front)
  }

  /** The deltas before the last end; none if there is no end. */
  function BeforeLastEnd(events: seq<Event>): Option<string>
    requires Tail(events)
  {
    if events == [] then None
    else
      var e, front := events[|events| - 1], events[..|events| - 1];
      if e.ToolCallEnd? then Some(DeltasOf(front)) else BeforeLastEnd(front)
  }

  /** The deltas after the last end, if one came after it. */
  function AfterLastEnd(events: seq<Event>): Option<string>
    requires Tail(events)
  {
    if events == [] then None
    else
      var e, front := events[|events| - 1], events[..|events| - 1];
      if e.ToolCallEnd? then None
      else Some(OrNone(AfterLastEnd(front)) + e.delta)
  }

  /** Some end comes before a delta. */
  predicate EndBeforeDelta(events: seq<Event>) {
    exists j, k :: 0 <= j < k < |events| && events[j].ToolCallEnd? && events[k].ToolCallDelta?
  }

  function OrNone(s: Option<string>): string {
    if s.Some? then s.value else ""
  }

  lemma Regroup(x: string, y: string, z: string)
    ensures x + (y + z) == x + y + z
  {
  }

  lemma {:induction false} AllDeltas(events: seq<Event>)
    requires Tail(events)
    ensures DeltasOf(events) == OrNone(BeforeLastEnd(events)) + OrNone(AfterLastEnd(events))
  {
    if events != [] {
      var front, e := events[..|events| - 1], events[|events| - 1];
      AllDeltas(front);
      var x, y := OrNone(BeforeLastEnd(front)), OrNone(AfterLastEnd(front));
      Regroup(x, y, if e.ToolCallDelta? then e.delta else "");
      assert DeltasOf(front) + "" == DeltasOf(front);
    }
  }

  /** A delta after the last end exists exactly if the list does not finish with an end; it then comes after
      some end exactly if there is one. */
  lemma {:induction false} EndsAndDeltas(events: seq<Event>)
    requires Tail(events)
    ensures AfterLastEnd(events).Some? ==> (EndBeforeDelta(events) <==> BeforeLastEnd(events).Some?)
    ensures BeforeLastEnd(events).Some? <==> exists j :: 0 <= j < |events| && events[j].ToolCallEnd?
    ensures AfterLastEnd(events).Some? <==> events != [] && events[|events| - 1].ToolCallDelta?
  {
    if events != [] {
      var front := events[..|events| - 1];
      EndsAndDeltas(front);
      if j :| 0 <= j < |front| && front[j].ToolCallEnd? {
        assert events[j].ToolCallEnd?;
      }
    }
  }

  /** What a call's partial JSON is after its start and any deltas and ends: the deltas since the last end,
      behind the word that stands for a missing text if there was an end; nothing right after an end. */
  function Partial(tail: seq<Event>): Option<string>
    requires Tail(tail)
  {
    if BeforeLastEnd(tail).None? then Some(DeltasOf(tail))
    else if AfterLastEnd(tail).None? then None
    else Some("undefined" + AfterLastEnd(tail).value)
  }

  predicate CallWith(f: Fate, id: string, name: string, partial: Option<string>) {
    && f.Good? && f.block.Some? && f.block.value.ToolCallBlock?
    && f.block.value.id == id && f.block.value.name == name && f.block.value.partialJson == partial
  }

  lemma {:induction false} PartialOfTail(before: seq<Event>, i: nat, id: string, name: string, tail: seq<Event>,
                                         parse: string -> Json)
    requires AllIndexed(before) && Fold(before, parse).Good? && Tail(tail)
    ensures CallWith(Fold(before + [ToolCallStart(i, id, name)] + tail, parse), id, name, Partial(tail))
    decreases |tail|
  {
    hide Fold;
    var begun := before + [ToolCallStart(i, id, name)];
    if tail == [] {
      FoldPush(before, ToolCallStart(i, id, name), parse);
      assert begun + tail == begun;
    } else {
      var front, e := tail[..|tail| - 1], tail[|tail| - 1];
      PartialOfTail(before, i, id, name, front, parse);
      FoldPush(begun + front, e, parse);
      assert begun + tail == begun + front + [e];
      PartialStep(front, e);
    }
  }

  lemma PartialStep(front: seq<Event>, e: Event)
    requires Tail(front) && (e.ToolCallDelta? || e.ToolCallEnd?)
    ensures Tail(front + [e])
    ensures e.ToolCallEnd? ==> Partial(front + [e]) == None
    ensures e.ToolCallDelta? ==>
      Partial(front + [e]) == Some((if Partial(front).Some? then Partial(front).value else "undefined") + e.delta)
  {
    assert (front + [e])[..|front|] == front;
    if e.ToolCallDelta? && BeforeLastEnd(front).Some? {
      var x := OrNone(AfterLastEnd(front));
      assert "undefined" + (x + e.delta) == "undefined" + x + e.delta;
      assert x == "" ==> "undefined" + x == "undefined";
    }
  }

  /** Exactly when a call's partial JSON, while there is one, is the concatenation of all deltas since its
      start: no end came before a delta, or the deltas before the last end spell that very word. */
  lemma PartialIsItsDeltasIff(before: seq<Event>, i: nat, id: string, name: string, tail: seq<Event>,
                              parse: string -> Json)
    requires AllIndexed(before) && Fold(before, parse).Good? && Tail(tail)
    ensures var f := Fold(before + [ToolCallStart(i, id, name)] + tail, parse);
            && f.Good? && f.block.Some? && f.block.value.ToolCallBlock?
            && (f.block.value.partialJson.Some? ==>
                  (f.block.value.partialJson.value == DeltasOf(tail)
                   <==> !EndBeforeDelta(tail) || BeforeLastEnd(tail) == Some("undefined")))
            && (f.block.value.partialJson.None? <==> tail != [] && tail[|tail| - 1].ToolCallEnd?)
  {
    PartialOfTail(before, i, id, name, tail, parse);
    AllDeltas(tail);
    EndsAndDeltas(tail);
    hide Fold, DeltasOf, BeforeLastEnd, AfterLastEnd, EndBeforeDelta;
    if AfterLastEnd(tail).Some? && BeforeLastEnd(tail).Some? {
      SameEnd(BeforeLastEnd(tail).value, "undefined", AfterLastEnd(tail).value);
    }
  }

  lemma SameEnd(a: string, b: string, c: string)
    ensures a + c == b + c <==> a == b
  {
    if a + c == b + c {
      assert (a + c)[..|a|] == a && (b + c)[..|b|] == b;
    }
  }

  /** Such an input: one delta after the end of the call. */
  lemma LateDeltaIsSpoiled(i: nat, id: string, name: string, delta: string, parse: string -> Json)
    ensures CallWith(Fold([] + [ToolCallStart(i, id, name)] + [ToolCallEnd(i), ToolCallDelta(i, delta)], parse),
                     id, name, Some("undefined" + delta))
    ensures "undefined" + delta != delta
  {
    var tail := [ToolCallEnd(i), ToolCallDelta(i, delta)];
    var none: seq<Event> := [];
    assert Fold(none, parse).Good?;
    PartialOfTail(none, i, id, name, tail, parse);
    assert tail[..1] == [ToolCallEnd(i)] && [ToolCallEnd(i)][..0] == none;
    assert BeforeLastEnd(tail) == BeforeLastEnd([ToolCallEnd(i)]) == Some("");
    assert AfterLastEnd(tail) == Some("" + delta);
    assert "" + delta == delta;
  }

  /** A block as the server produced it: the pieces it streamed, and what came with its end. */
  datatype Script =
    | Absent
    | TextScript(deltas: seq<string>, signature: Option<string>)
    | ThinkingScript(deltas: seq<string>, signature: Option<string>)
    | ToolCallScript(id: string, name: string, deltas: seq<string>)

  /** What the server sends for a block. */
  function Stripped(i: nat, s: Script): (r: seq<Event>)
    ensures AllIndexed(r)
  {
    match s
    case Absent => []
    case TextScript(deltas, signature) => [] + [TextStart(i)] + TextDeltas(i, deltas) + [TextEnd(i, signature)]
    case ThinkingScript(deltas, signature) =>
      [] + [ThinkingStart(i)] + ThinkingDeltas(i, deltas) + [ThinkingEnd(i, signature)]
    case ToolCallScript(id, name, deltas) =>
      [] + [ToolCallStart(i, id, name)] + ToolCallDeltas(i, deltas) + [ToolCallEnd(i)]
  }

  /** The block the server had. */
  function Whole(s: Script, parse: string -> Json): Option<Block> {
    match s
    case Absent => None
    case TextScript(deltas, signature) => Some(TextBlock(Flatten(deltas), signature))
    case ThinkingScript(deltas, signature) => Some(ThinkingBlock(Flatten(deltas), signature))
    case ToolCallScript(id, name, deltas) => Some(Finished(id, name, deltas, parse))
  }

  lemma StrippedFolds(i: nat, s: Script, parse: string -> Json)
    ensures Fold(Stripped(i, s), parse) == Good(Whole(s, parse))
  {
    if !s.Absent? {
      assert Fold([], parse).Good?;
      hide Fold, Flatten, Finished;
      match s {
        case TextScript(deltas, signature) =>
          EndsCarryTheWhole([], i, "", "", deltas, signature, parse);
          AfterFold([] + [TextStart(i)] + TextDeltas(i, deltas), TextEnd(i, signature), parse);
        case ThinkingScript(deltas, signature) =>
          EndsCarryTheWhole([], i, "", "", deltas, signature, parse);
          AfterFold([] + [ThinkingStart(i)] + ThinkingDeltas(i, deltas), ThinkingEnd(i, signature), parse);
        case ToolCallScript(id, name, deltas) =>
          EndsCarryTheWhole([], i, id, name, deltas, None, parse);
          AfterFold([] + [ToolCallStart(i, id, name)] + ToolCallDeltas(i, deltas), ToolCallEnd(i), parse);
      }
    }
  }

  lemma AfterFold(own: seq<Event>, e: Event, parse: string -> Json)
    requires AllIndexed(own) && Indexed(e)
    ensures Fold(own + [e], parse) == match After(own, e, parse) case Refused(_) => Bad case Edited(b, _) => Good(b)
  {
    FoldPush(own, e, parse);
  }

  /** Stripping and rebuilding: however the blocks of a message are interleaved in the stream, the client
      reads it without an error and ends with the blocks the server had. */
  lemma RebuiltAsSent(events: seq<Event>, scripts: nat -> Script, parse: string -> Json)
    requires forall i: nat :: Own(events, i) == Stripped(i, scripts(i))
    ensures Read(NOTHING_READ, events, parse).error.None?
    ensures forall i: nat :: At(Read(NOTHING_READ, events, parse).message.content, i) == Whole(scripts(i), parse)
  {
    hide Stripped, Fold, Read, Whole, At, Own;
    forall i: nat ensures Fold(Own(events, i), parse) == Good(Whole(scripts(i), parse)) {
      assert Own(events, i) == Stripped(i, scripts(i));
      StrippedFolds(i, scripts(i), parse);
    }
    AllGoodIf(events, parse);
    BlocksAreIndependent(events, parse);
  }

  // The stream of lines.

  const PREFIX := "data: "

  /** The events of complete lines; other lines and empty data are skipped. */
  function EventsOf(lines: seq<string>, decode: string -> Event): seq<Event> {
    if lines == [] then []
    else
      var line, before := lines[|lines| - 1], EventsOf(lines[..|lines| - 1], decode);
      if StartsWith(line, PREFIX) && Trim(line[|PREFIX|..]) != "" then before + [decode(Trim(line[|PREFIX|..]))]
      else before
  }

  lemma {:induction false} EventsAppend(a: seq<string>, b: seq<string>, decode: string -> Event)
    ensures EventsOf(a + b, decode) == EventsOf(a, decode) + EventsOf(b, decode)
  {
    if b == [] {
      assert a + b == a && EventsOf(a, decode) + [] == EventsOf(a, decode);
    } else {
      EventsAppend(a, b[..|b| - 1], decode);
      assert (a + b)[..|a + b| - 1] == a + b[..|b| - 1];
    }
  }

  lemma {:induction false} ReadAppend(r: Reading, a: seq<Event>, b: seq<Event>, parse: string -> Json)
    ensures Read(r, a + b, parse) == Read(Read(r, a, parse), b, parse)
  {
    hide Process;
    if b == [] {
      assert a + b == a;
    } else {
      ReadAppend(r, a, b[..|b| - 1], parse);
      assert (a + b)[..|a + b| - 1] == a + b[..|b| - 1];
    }
  }

  function ReadChunks(r: Reading, chunks: seq<string>, decode: string -> Event, parse: string -> Json): Reading {
    if chunks == [] then r
    else
      var front := chunks[..|chunks| - 1];
      Read(ReadChunks(r, front, decode, parse), EventsOf(Lines(Held(front) + chunks[|chunks| - 1]), decode), parse)
  }

  /** The message depends on the bytes of the stream, not on how they were cut into chunks. */
  lemma {:induction false} ChunksDoNotMatter(r: Reading, chunks: seq<string>, decode: string -> Event,
                                             parse: string -> Json)
    ensures ReadChunks(r, chunks, decode, parse) == Read(r, EventsOf(Lines(Flatten(chunks)), decode), parse)
  {
    if chunks != [] {
      var front, last := chunks[..|chunks| - 1], chunks[|chunks| - 1];
      ChunksDoNotMatter(r, front, decode, parse);
      ChunkingIsInvisible(front);
      LinesAppend(Flatten(front), last);
      EventsAppend(Lines(Flatten(front)), Lines(Held(front) + last), decode);
      ReadAppend(r, EventsOf(Lines(Flatten(front)), decode), EventsOf(Lines(Held(front) + last), decode), parse);
    }
  }

  /** The client's side of the stream, with the message it changes in place. */
  class ProxyStream {
    var buffer: string
    var content: map<nat, Block>
    var stopReason: string
    var errorMessage: Option<string>
    var usage: nat
    var emitted: seq<Emitted>
    var failed: Option<string>

    function Model(): Reading
      reads this
    {
      Reading(Message(content, stopReason, errorMessage, usage), emitted, failed)
    }

    constructor ()
      ensures Model() == NOTHING_READ && buffer == ""
    {
      buffer, content, stopReason, errorMessage, usage, emitted, failed := "", map[], "stop", None, 0, [], None;
    }

    /** Changes the message in place; fails on a delta or an end that does not fit its block. */
    method ProcessProxyEvent(e: Event, parse: string -> Json)
      requires failed.None?
      modifies this
      ensures Model() == Process(old(Model()), e, parse) && buffer == old(buffer)
    {
      match e {
        case Start => emitted := emitted + [Announced(e)];
        case Done(reason, n) =>
          stopReason, usage := reason, n;
          emitted := emitted + [Announced(e)];
        case Error(reason, message, n) =>
          stopReason, errorMessage, usage := reason, message, n;
          emitted := emitted + [Announced(e)];
        case TextStart(_) | TextDelta(_, _) | TextEnd(_, _) => ProcessText(e, parse);
        case ThinkingStart(_) | ThinkingDelta(_, _) | ThinkingEnd(_, _) => ProcessThinking(e, parse);
        case _ => ProcessToolCall(e, parse);
      }
    }

    method ProcessText(e: Event, parse: string -> Json)
      requires failed.None? && (e.TextStart? || e.TextDelta? || e.TextEnd?)
      modifies this
      ensures Model() == Process(old(Model()), e, parse) && buffer == old(buffer)
    {
      match e {
        case TextStart(i) =>
          content := content[i := TextBlock("", None)];
          emitted := emitted + [Announced(e)];
        case TextDelta(i, delta) =>
          if i in content && content[i].TextBlock? {
            content := content[i := content[i].(text := content[i].text + delta)];
            emitted := emitted + [Announced(e)];
          } else {
            failed := Some("Received text_delta for non-text content");
          }
        case TextEnd(i, signature) =>
          if i in content && content[i].TextBlock? {
            content := content[i := content[i].(textSignature := signature)];
            emitted := emitted + [TextComplete(i, content[i].text)];
          } else {
            failed := Some("Received text_end for non-text content");
          }
      }
    }

    method ProcessThinking(e: Event, parse: string -> Json)
      requires failed.None? && (e.ThinkingStart? || e.ThinkingDelta? || e.ThinkingEnd?)
      modifies this
      ensures Model() == Process(old(Model()), e, parse) && buffer == old(buffer)
    {
      match e {
        case ThinkingStart(i) =>
          content := content[i := ThinkingBlock("", None)];
          emitted := emitted + [Announced(e)];
        case ThinkingDelta(i, delta) =>
          if i in content && content[i].ThinkingBlock? {
            content := content[i := content[i].(thinking := content[i].thinking + delta)];
            emitted := emitted + [Announced(e)];
          } else {
            failed := Some("Received thinking_delta for non-thinking content");
          }
        case ThinkingEnd(i, signature) =>
          if i in content && content[i].ThinkingBlock? {
            content := content[i := content[i].(thinkingSignature := signature)];
            emitted := emitted + [ThinkingComplete(i, content[i].thinking)];
          } else {
            failed := Some("Received thinking_end for non-thinking content");
          }
      }
    }

    method ProcessToolCall(e: Event, parse: string -> Json)
      requires failed.None? && (e.ToolCallStart? || e.ToolCallDelta? || e.ToolCallEnd?)
      modifies this
      ensures Model() == Process(old(Model()), e, parse) && buffer == old(buffer)
    {
      match e {
        case ToolCallStart(i, id, name) =>
          content := content[i := ToolCallBlock(id, name, EMPTY_OBJECT, Some(""))];
          emitted := emitted + [Announced(e)];
        case ToolCallDelta(i, delta) =>
          if i in content && content[i].ToolCallBlock? {
            var partial := (if content[i].partialJson.Some? then content[i].partialJson.value else "undefined") + delta;
            content := content[i := content[i].(partialJson := Some(partial), arguments := parse(partial))];
            emitted := emitted + [Announced(e)];
          } else {
            failed := Some("Received toolcall_delta for non-toolCall content");
          }
        case ToolCallEnd(i) =>
          if i in content && content[i].ToolCallBlock? {
            content := content[i := content[i].(partialJson := None)];
            emitted := emitted + [ToolCallComplete(i, content[i])];
          }
      }
    }

    /** The complete lines of what has arrived are processed until one fails; the rest is kept. */
    method OnChunk(chunk: string, decode: string -> Event, parse: string -> Json)
      requires failed.None?
      modifies this
      ensures Model() == Read(old(Model()), EventsOf(Lines(old(buffer) + chunk), decode), parse)
      ensures buffer == Rest(old(buffer) + chunk)
    {
      hide Read, Process, EventsOf;
      ghost var before := Model();
      var lines := Lines(buffer + chunk);
      buffer := Rest(buffer + chunk);
      var n := 0;
      assert lines[..0] == [];
      NothingRead(before, decode, parse);
      while n < |lines| && failed.None?
        invariant n <= |lines| && buffer == Rest(old(buffer) + chunk)
        invariant Model() == Read(before, EventsOf(lines[..n], decode), parse)
      {
        var line := lines[n];
        ReadLine(before, lines[..n], line, decode, parse);
        assert lines[..n + 1] == lines[..n] + [line];
        if StartsWith(line, PREFIX) {
          var data := Trim(line[|PREFIX|..]);
          if data != "" {
            ProcessProxyEvent(decode(data), parse);
          }
        }
        n := n + 1;
      }
      assert lines == lines[..n] + lines[n..];
      EventsAppend(lines[..n], lines[n..], decode);
      ReadAppend(before, EventsOf(lines[..n], decode), EventsOf(lines[n..], decode), parse);
      if failed.Some? {
        FailureIsFinal(Model(), EventsOf(lines[n..], decode), parse);
      } else {
        assert lines[n..] == [];
        NothingRead(Model(), decode, parse);
      }
    }
  }

  lemma NothingRead(r: Reading, decode: string -> Event, parse: string -> Json)
    ensures Read(r, EventsOf([], decode), parse) == r
  {
  }

  lemma ReadLine(r: Reading, lines: seq<string>, line: string, decode: string -> Event, parse: string -> Json)
    ensures Read(r, EventsOf(lines + [line], decode), parse)
         == var s := Read(r, EventsOf(lines, decode), parse);
            if StartsWith(line, PREFIX) && Trim(line[|PREFIX|..]) != "" then
              Process(s, decode(Trim(line[|PREFIX|..])), parse)
            else s
  {
    assert (lines + [line])[..|lines|] == lines;
    var es := EventsOf(lines, decode);
    if StartsWith(line, PREFIX) && Trim(line[|PREFIX|..]) != "" {
      var e := decode(Trim(line[|PREFIX|..]));
      assert (es + [e])[..|es|] == es;
    }
  }

  /** After a failure nothing more is read. */
  lemma {:induction false} FailureIsFinal(r: Reading, events: seq<Event>, parse: string -> Json)
    requires r.error.Some?
    ensures Read(r, events, parse) == r
  {
    if events != [] {
      FailureIsFinal(r, events[..|events| - 1], parse);
    }
  }

  // How a stream ends.

  predicate Ends(e: Event) {
    e.Done? || e.Error?
  }

  lemma {:induction false} NoEndKeeps(r: Reading, events: seq<Event>, parse: string -> Json)
    requires NoEnds(events)
    ensures var m, n := Read(r, events, parse).message, r.message;
            m.stopReason == n.stopReason && m.errorMessage == n.errorMessage && m.usage == n.usage
  {
    hide EditBlock, Put, Passing;
    if events != [] {
      NoEndKeeps(r, events[..|events| - 1], parse);
    }
  }

  /** The last end of a stream decides the stop reason and the usage, and an error its message; before any
      end the message says that it stopped by itself, without an error. */
  predicate NoEnds(events: seq<Event>) {
    forall k :: 0 <= k < |events| ==> !Ends(events[k])
  }

  lemma EndDecides(r: Reading, e: Event, parse: string -> Json)
    requires Ends(e) && r.error.None?
    ensures var t := Process(r, e, parse);
            && t.error.None? && t.message.stopReason == e.reason && t.message.usage == e.usage
            && t.message.errorMessage == if e.Error? then e.errorMessage else r.message.errorMessage
  {
  }

  /** The last end of a stream decides the stop reason and the usage, and an error the error message too. */
  lemma EndIsKept(before: seq<Event>, e: Event, after: seq<Event>, parse: string -> Json)
    requires Ends(e) && NoEnds(after) && Read(NOTHING_READ, before + [e] + after, parse).error.None?
    ensures var m := Read(NOTHING_READ, before + [e] + after, parse).message;
            && m.stopReason == e.reason && m.usage == e.usage
            && m.errorMessage
               == if e.Error? then e.errorMessage else Read(NOTHING_READ, before, parse).message.errorMessage
  {
    hide Process, Ends;
    var r := Read(NOTHING_READ, before, parse);
    assert (before + [e])[..|before|] == before;
    ReadAppend(NOTHING_READ, before + [e], after, parse);
    ReadAppend(NOTHING_READ, before, [e] + after, parse);
    assert before + [e] + after == before + ([e] + after);
    if r.error.Some? {
      FailureIsFinal(r, [e] + after, parse);
    } else {
      EndDecides(r, e, parse);
      NoEndKeeps(Process(r, e, parse), after, parse);
    }
  }

  /** Before any end the message says that it stopped by itself, without an error. */
  lemma NoEndLeavesIt(events: seq<Event>, parse: string -> Json)
    requires NoEnds(events)
    ensures var m := Read(NOTHING_READ, events, parse).message;
            m.stopReason == "stop" && m.errorMessage == None && m.usage == 0
  {
    hide Process, Read, Ends;
    NoEndKeeps(NOTHING_READ, events, parse);
  }

  /** The kind of block an event needs at its index; a start, and the end of a call, need none. */
  predicate Fits(b: Option<Block>, e: Event) {
    match e
    case TextDelta(_, _) | TextEnd(_, _) => b.Some? && b.value.TextBlock?
    case ThinkingDelta(_, _) | ThinkingEnd(_, _) => b.Some? && b.value.ThinkingBlock?
    case ToolCallDelta(_, _) => b.Some? && b.value.ToolCallBlock?
    case _ => true
  }

  function Complaint(e: Event): string {
    match e
    case TextDelta(_, _) => "Received text_delta for non-text content"
    case TextEnd(_, _) => "Received text_end for non-text content"
    case ThinkingDelta(_, _) => "Received thinking_delta for non-thinking content"
    case ThinkingEnd(_, _) => "Received thinking_end for non-thinking content"
    case _ => "Received toolcall_delta for non-toolCall content"
  }

  /** The reading fails exactly on an event that meets a block of another kind, and changes nothing then. */
  lemma MisfitsFail(r: Reading, e: Event, parse: string -> Json)
    requires r.error.None?
    ensures var t := Process(r, e, parse);
            if Indexed(e) && !Fits(At(r.message.content, e.i), e) then t == r.(error := Some(Complaint(e)))
            else t.error.None?
  {
  }

  /** What is passed on for an event: the event itself, or at an end the whole block. */
  predicate Answers(m: Emitted, e: Event) {
    match e
    case TextEnd(i, _) => m.TextComplete? && m.i == i
    case ThinkingEnd(i, _) => m.ThinkingComplete? && m.i == i
    case ToolCallEnd(i) => m.ToolCallComplete? && m.i == i
    case _ => m == Announced(e)
  }

  /** Every event is passed on once, in order; only the end of a call that is none may be left out. */
  predicate PassedOn(events: seq<Event>, emitted: seq<Emitted>) {
    if events == [] then emitted == []
    else
      var front, e := events[..|events| - 1], events[|events| - 1];
      || (emitted != [] && Answers(emitted[|emitted| - 1], e) && PassedOn(front, emitted[..|emitted| - 1]))
      || (e.ToolCallEnd? && PassedOn(front, emitted))
  }

  lemma PassesOn(r: Reading, e: Event, parse: string -> Json)
    requires Process(r, e, parse).error.None?
    ensures var emitted := Process(r, e, parse).emitted;
            || (exists m :: Answers(m, e) && emitted == r.emitted + [m])
            || (e.ToolCallEnd? && emitted == r.emitted)
  {
    if Process(r, e, parse).emitted != r.emitted {
      var m := Process(r, e, parse).emitted[|r.emitted|];
      assert Answers(m, e);
    }
  }

  lemma {:induction false} EveryEventIsPassedOn(events: seq<Event>, parse: string -> Json)
    requires Read(NOTHING_READ, events, parse).error.None?
    ensures PassedOn(events, Read(NOTHING_READ, events, parse).emitted)
  {
    hide Process, Answers;
    if events != [] {
      var front, e := events[..|events| - 1], events[|events| - 1];
      var r := Read(NOTHING_READ, front, parse);
      ErrorStays(r, e, parse);
      EveryEventIsPassedOn(front, parse);
      PassesOn(r, e, parse);
      var emitted := Process(r, e, parse).emitted;
      if emitted != r.emitted {
        var m :| Answers(m, e) && emitted == r.emitted + [m];
        assert emitted[..|emitted| - 1] == r.emitted;
      }
    }
  }

  lemma ErrorStays(r: Reading, e: Event, parse: string -> Json)
    ensures r.error.Some? ==> Process(r, e, parse) == r
  {
  }

  // What the server sends.

  /** Each payload on a line of its own, followed by an empty line. */
  function SentText(payloads: seq<string>): string {
    if payloads == [] then "" else SentText(payloads[..|payloads| - 1]) + ("data: " + payloads[|payloads| - 1] + "\n\n")
  }

  function Decoded(payloads: seq<string>, decode: string -> Event): (events: seq<Event>)
    ensures |events| == |payloads| && forall k :: 0 <= k < |events| ==> events[k] == decode(payloads[k])
  {
    seq(|payloads|, k requires 0 <= k < |payloads| => decode(payloads[k]))
  }

  lemma EventLines(payload: string)
    requires '\n' !in payload
    ensures Lines("data: " + payload + "\n\n") == ["data: " + payload, ""] && Rest("data: " + payload + "\n\n") == ""
  {
    var line := "data: " + payload;
    var text := line + "\n\n";
    FirstLine(text, |line|);
    assert text[..|line|] == line && text[|line| + 1..] == "\n";
    FirstLine("\n", 0);
    assert "\n"[..0] == "" && "\n"[1..] == "";
    NoLine("");
    assert [line] + ([""] + []) == [line, ""];
  }

  lemma EventOfLines(payload: string, decode: string -> Event)
    requires payload != "" && Trim(payload) == payload
    ensures EventsOf(["data: " + payload, ""], decode) == [decode(payload)]
  {
    var line := "data: " + payload;
    assert [line, ""][..1] == [line] && [line][..0] == [];
    assert line[..|PREFIX|] == PREFIX && line[|PREFIX|..] == payload;
    assert EventsOf([], decode) == [];
    assert EventsOf([line], decode) == [] + [decode(payload)];
    assert |""| < |PREFIX|;
  }

  /** The events of what the server sends are those it was given, in order. */
  lemma {:induction false} StreamIsRead(payloads: seq<string>, decode: string -> Event)
    requires forall k :: 0 <= k < |payloads| ==>
               payloads[k] != "" && '\n' !in payloads[k] && Trim(payloads[k]) == payloads[k]
    ensures EventsOf(Lines(SentText(payloads)), decode) == Decoded(payloads, decode)
    ensures Rest(SentText(payloads)) == ""
  {
    hide Lines, Rest, Trim, EventsOf;
    if payloads == [] {
      NothingSent(decode);
    } else {
      var front, last := payloads[..|payloads| - 1], payloads[|payloads| - 1];
      var piece := "data: " + last + "\n\n";
      StreamIsRead(front, decode);
      LinesAppend(SentText(front), piece);
      assert "" + piece == piece;
      EventLines(last);
      EventOfLines(last, decode);
      EventsAppend(Lines(SentText(front)), Lines(piece), decode);
    }
  }

  lemma NothingSent(decode: string -> Event)
    ensures EventsOf(Lines(""), decode) == [] && Rest("") == ""
  {
    NoLine("");
  }
}
