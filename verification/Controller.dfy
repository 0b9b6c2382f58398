/** One chat's queue in the IM controller: messages wait in line, one drainer at a time works on them,
    and an abort empties the line and silences the work under way. */
module Controller {
  import opened Text

  const MAX_REPLY_LENGTH: nat := 3500

  const SESSION_CREATED := "New session created."

  datatype Item = Prompt(text: string) | NewSession

  /** What happens to the items, which are numbered as they arrive. `Replied` is the moment a reply or an
      error message to the item begins. */
  datatype Note =
    | Queued(i: nat)
    | Began(i: nat)
    | Returned(i: nat)
    | Dropped(i: nat)
    | Replied(i: nat)
    | Abort

  /** An activation of the draining loop, waiting: for the backend, for a message to be sent (`left` are
      still to go), or for an error message to be sent; or about to look at the line. */
  datatype Drainer =
    | Working(i: nat, item: Item, epoch: nat)
    | Sending(i: nat, epoch: nat, left: nat)
    | Excusing(i: nat)
    | Resuming

  /** `gone` items have left the line. */
  datatype Chat = Chat(items: seq<Item>, running: bool, abortEpoch: nat, drainers: seq<Drainer>, gone: nat,
                       trace: seq<Note>)

  const START := Chat([], false, 0, [], 0, [])

  function Noted(c: Chat, n: Note): Chat {
    c.(trace := c.trace + [n])
  }

  function Drops(from: nat, until: nat): seq<Note>
    requires from <= until
  {
    seq(until - from, k requires 0 <= k => Dropped(from + k))
  }

  /** The head of the draining loop, for activation `k`: take the next item and call the backend, or end. */
  function LoopHead(c: Chat, k: nat): Chat
    requires k < |c.drainers|
  {
    if c.items == [] then c.(running := false, drainers := c.drainers[..k] + c.drainers[k + 1..])
    else
      Noted(c, Began(c.gone)).(items := c.items[1..], gone := c.gone + 1,
                               drainers := c.drainers[k := Working(c.gone, c.items[0], c.abortEpoch)])
  }

  function Enqueue(c: Chat, item: Item): Chat {
    var d := Noted(c, Queued(c.gone + |c.items|)).(items := c.items + [item]);
    if c.running then d
    else LoopHead(d.(running := true, drainers := c.drainers + [Resuming]), |c.drainers|)
  }

  function Clear(c: Chat): Chat {
    c.(items := [], gone := c.gone + |c.items|, trace := c.trace + Drops(c.gone, c.gone + |c.items|))
  }

  function AbortAll(c: Chat): Chat {
    var d := Clear(c);
    Noted(d, Abort).(abortEpoch := c.abortEpoch + 1)
  }

  /** The number of messages a reply is sent in. */
  function ChunkCount(length: nat): nat {
    (length + MAX_REPLY_LENGTH - 1) / MAX_REPLY_LENGTH
  }

  /** Cuts a reply into messages: together they are the reply, none is empty or too long. */
  method Chunked(text: string) returns (messages: seq<string>)
    ensures Flatten(messages) == text
    ensures |messages| == ChunkCount(|text|)
    ensures forall k :: 0 <= k < |messages| ==> 0 < |messages[k]| <= MAX_REPLY_LENGTH
  {
    messages := [];
    var offset := 0;
    while offset < |text|
      invariant offset == |messages| * MAX_REPLY_LENGTH
      invariant offset < |text| + MAX_REPLY_LENGTH
      invariant Flatten(messages) == text[..Min(offset, |text|)]
      invariant forall k :: 0 <= k < |messages| ==> 0 < |messages[k]| <= MAX_REPLY_LENGTH
    {
      var end := Min(offset + MAX_REPLY_LENGTH, |text|);
      assert (messages + [text[offset..end]])[..|messages|] == messages;
      assert text[..offset] + text[offset..end] == text[..end];
      messages := messages + [text[offset..end]];
      offset := offset + MAX_REPLY_LENGTH;
    }
    assert text[..|text|] == text;
  }

  /** The backend answered activation `k` with a text of this length; a new session gets one message. */
  function BackendDone(c: Chat, k: nat, length: nat): Chat
    requires k < |c.drainers| && c.drainers[k].Working?
  {
    var w := c.drainers[k];
    var d := Noted(c, Returned(w.i));
    var n := if w.item.NewSession? then 1 else ChunkCount(length);
    if w.epoch != c.abortEpoch || n == 0 then LoopHead(d, k)
    else Noted(d, Replied(w.i)).(drainers := c.drainers[k := Sending(w.i, w.epoch, n)])
  }

  /** Activation `k` catches an error. */
  function Catch(c: Chat, k: nat, i: nat, epoch: nat): Chat
    requires k < |c.drainers|
  {
    if epoch != c.abortEpoch then LoopHead(c, k)
    else Noted(c, Replied(i)).(drainers := c.drainers[k := Excusing(i)])
  }

  function BackendFailed(c: Chat, k: nat): Chat
    requires k < |c.drainers| && c.drainers[k].Working?
  {
    Catch(Noted(c, Returned(c.drainers[k].i)), k, c.drainers[k].i, c.drainers[k].epoch)
  }

  function MessageSent(c: Chat, k: nat): Chat
    requires k < |c.drainers| && !c.drainers[k].Working?
  {
    var w := c.drainers[k];
    if w.Sending? && w.left > 1 then c.(drainers := c.drainers[k := w.(left := w.left - 1)])
    else LoopHead(c, k)
  }

  function SendFailed(c: Chat, k: nat): Chat
    requires k < |c.drainers| && c.drainers[k].Sending?
  {
    Catch(c, k, c.drainers[k].i, c.drainers[k].epoch)
  }

  datatype Input =
    | Message(item: Item)
    | AbortCommand
    | Disposal
    | Done(k: nat, length: nat)
    | Fail(k: nat)
    | Sent(k: nat)
    | Unsent(k: nat)

  function Step(c: Chat, i: Input): Chat {
    match i
    case Message(item) => Enqueue(c, item)
    case AbortCommand => AbortAll(c)
    case Disposal => Clear(c)
    case Done(k, length) => if k < |c.drainers| && c.drainers[k].Working? then BackendDone(c, k, length) else c
    case Fail(k) => if k < |c.drainers| && c.drainers[k].Working? then BackendFailed(c, k) else c
    case Sent(k) => if k < |c.drainers| && !c.drainers[k].Working? then MessageSent(c, k) else c
    case Unsent(k) => if k < |c.drainers| && c.drainers[k].Sending? then SendFailed(c, k) else c
  }

  function Run(inputs: seq<Input>): Chat {
    if inputs == [] then START else Step(Run(inputs[..|inputs| - 1]), inputs[|inputs| - 1])
  }

  // What a trace must look like.

  /** `next` is the first item still in line, `flight` the item the backend works on, `current` the item
      taken last, `silenced` whether an abort came after it was taken. */
  datatype Watch =
    | Watch(queued: nat, next: nat, flight: Option<nat>, current: Option<nat>, silenced: bool)
    | Wrong

  function See(w: Watch, n: Note): Watch {
    if w.Wrong? then Wrong
    else
      match n
      case Queued(i) => if i == w.queued then w.(queued := i + 1) else Wrong
      case Began(i) =>
        if i == w.next < w.queued && w.flight.None?
        then w.(next := i + 1, flight := Some(i), current := Some(i), silenced := false) else Wrong
      case Returned(i) => if w.flight == Some(i) then w.(flight := None) else Wrong
      case Dropped(i) => if i == w.next < w.queued then w.(next := i + 1) else Wrong
      case Replied(i) => if w.current == Some(i) && w.flight.None? && !w.silenced then w else Wrong
      case Abort => if w.next == w.queued then w.(silenced := true) else Wrong
  }

  function Seen(trace: seq<Note>): Watch {
    if trace == [] then Watch(0, 0, None, None, false)
    else See(Seen(trace[..|trace| - 1]), trace[|trace| - 1])
  }

  lemma SeenPush(trace: seq<Note>, n: Note)
    ensures Seen(trace + [n]) == See(Seen(trace), n)
  {
    assert (trace + [n])[..|trace|] == trace;
  }

  /** The drainer's item is the one taken last; an epoch that is still current means no abort came since. */
  predicate Tracks(c: Chat, w: Watch) {
    && w.Watch? && w.next == c.gone && w.queued == c.gone + |c.items|
    && c.running == (|c.drainers| == 1) && |c.drainers| <= 1
    && (c.drainers == [] ==> c.items == [] && w.flight.None?)
    && (c.drainers != [] ==>
          var d := c.drainers[0];
          && !d.Resuming?
          && w.flight == (if d.Working? then Some(d.i) else None)
          && w.current == Some(d.i)
          && (d.Excusing? || (d.epoch <= c.abortEpoch && w.silenced == (d.epoch != c.abortEpoch)))
          && (d.Sending? ==> d.left > 0))
  }

  predicate Safe(c: Chat) {
    Tracks(c, Seen(c.trace))
  }

  /** At the loop head the drainer has no call in flight. */
  lemma LoopHeadTracks(c: Chat, w: Watch)
    requires w == Seen(c.trace) && w.Watch? && w.next == c.gone && w.queued == c.gone + |c.items|
    requires c.running && |c.drainers| == 1 && w.flight.None?
    ensures Safe(LoopHead(c, 0))
  {
    SeenPush(c.trace, Began(c.gone));
    assert c.drainers[..0] + c.drainers[1..] == [];
  }

  lemma EnqueueSafe(c: Chat, item: Item)
    requires Safe(c)
    ensures Safe(Enqueue(c, item))
  {
    hide Seen, LoopHead;
    var n := Queued(c.gone + |c.items|);
    SeenPush(c.trace, n);
    var d := Noted(c, n).(items := c.items + [item]);
    if c.running {
      assert Safe(d);
    } else {
      LoopHeadTracks(d.(running := true, drainers := [Resuming]), Seen(d.trace));
      assert c.drainers + [Resuming] == [Resuming];
    }
  }

  lemma DropsPush(from: nat, until: nat)
    requires from < until
    ensures Drops(from, until) == Drops(from, until - 1) + [Dropped(until - 1)]
  {
  }

  lemma {:induction false} DropsSeen(trace: seq<Note>, from: nat, until: nat)
    requires from <= until && Seen(trace).Watch? && Seen(trace).next == from && until <= Seen(trace).queued
    ensures Seen(trace + Drops(from, until)) == Seen(trace).(next := until)
    decreases until
  {
    if from == until {
      assert trace + Drops(from, until) == trace;
    } else {
      hide Seen, Drops;
      DropsSeen(trace, from, until - 1);
      DropsPush(from, until);
      assert trace + Drops(from, until) == (trace + Drops(from, until - 1)) + [Dropped(until - 1)];
      SeenPush(trace + Drops(from, until - 1), Dropped(until - 1));
    }
  }

  lemma ClearSafe(c: Chat)
    requires Safe(c)
    ensures Safe(Clear(c))
  {
    hide Seen, Drops;
    DropsSeen(c.trace, c.gone, c.gone + |c.items|);
  }

  lemma AbortSafe(c: Chat)
    requires Safe(c)
    ensures Safe(AbortAll(c))
  {
    hide Seen, Drops;
    ClearSafe(c);
    SeenPush(Clear(c).trace, Abort);
  }

  lemma CatchSafe(c: Chat, i: nat, epoch: nat)
    requires c.running && |c.drainers| == 1
    requires var w := Seen(c.trace);
             && w.Watch? && w.next == c.gone && w.queued == c.gone + |c.items| && w.flight.None?
             && w.current == Some(i) && epoch <= c.abortEpoch && w.silenced == (epoch != c.abortEpoch)
    ensures Safe(Catch(c, 0, i, epoch))
  {
    if epoch != c.abortEpoch {
      LoopHeadTracks(c, Seen(c.trace));
    } else {
      SeenPush(c.trace, Replied(i));
    }
  }

  lemma DoneSafe(c: Chat, length: nat)
    requires Safe(c) && |c.drainers| == 1 && c.drainers[0].Working?
    ensures Safe(BackendDone(c, 0, length))
  {
    var w := c.drainers[0];
    var d := Noted(c, Returned(w.i));
    SeenPush(c.trace, Returned(w.i));
    LoopHeadTracks(d, Seen(d.trace));
    SeenPush(d.trace, Replied(w.i));
  }

  lemma FailSafe(c: Chat)
    requires Safe(c) && |c.drainers| == 1 && c.drainers[0].Working?
    ensures Safe(BackendFailed(c, 0))
  {
    SeenPush(c.trace, Returned(c.drainers[0].i));
    CatchSafe(Noted(c, Returned(c.drainers[0].i)), c.drainers[0].i, c.drainers[0].epoch);
  }

  lemma SentSafe(c: Chat)
    requires Safe(c) && |c.drainers| == 1 && !c.drainers[0].Working?
    ensures Safe(MessageSent(c, 0))
    ensures c.drainers[0].Sending? ==> Safe(SendFailed(c, 0))
  {
    LoopHeadTracks(c, Seen(c.trace));
    if c.drainers[0].Sending? {
      CatchSafe(c, c.drainers[0].i, c.drainers[0].epoch);
    }
  }

  lemma StepSafe(c: Chat, i: Input)
    requires Safe(c)
    ensures Safe(Step(c, i))
  {
    assert |c.drainers| <= 1;
    match i {
      case Message(item) => EnqueueSafe(c, item);
      case AbortCommand => AbortSafe(c);
      case Disposal => ClearSafe(c);
      case Done(k, length) => if k < |c.drainers| && c.drainers[k].Working? { DoneSafe(c, length); }
      case Fail(k) => if k < |c.drainers| && c.drainers[k].Working? { FailSafe(c); }
      case Sent(k) => if k < |c.drainers| && !c.drainers[k].Working? { SentSafe(c); }
      case Unsent(k) => if k < |c.drainers| && c.drainers[k].Sending? { SentSafe(c); }
    }
  }

  /** However messages, aborts, disposals, the backend and the sends interleave: one activation of the loop
      at most, items waiting only while it is active, and a trace that never goes wrong. */
  lemma {:induction false} EveryRunIsSafe(inputs: seq<Input>)
    ensures var c := Run(inputs);
            && Safe(c) && !Seen(c.trace).Wrong?
            && |c.drainers| <= 1 && (c.items != [] ==> c.running && |c.drainers| == 1)
            && (c.drainers == [] ==> Seen(c.trace).next == Seen(c.trace).queued)
  {
    if inputs != [] {
      EveryRunIsSafe(inputs[..|inputs| - 1]);
      StepSafe(Run(inputs[..|inputs| - 1]), inputs[|inputs| - 1]);
    }
  }

  // What a trace that never goes wrong means.

  function Calls(trace: seq<Note>): int {
    if trace == [] then 0
    else
      var n := trace[|trace| - 1];
      Calls(trace[..|trace| - 1]) + (if n.Began? then 1 else if n.Returned? then -1 else 0)
  }

  function Leaves(trace: seq<Note>, i: nat): nat {
    if trace == [] then 0
    else
      var n := trace[|trace| - 1];
      Leaves(trace[..|trace| - 1], i) + (if n == Began(i) || n == Dropped(i) then 1 else 0)
  }

  /** A trace that is not wrong has no wrong start. */
  lemma {:induction false} Prefix(trace: seq<Note>, k: nat)
    requires k <= |trace| && Seen(trace).Watch?
    ensures Seen(trace[..k]).Watch?
    decreases |trace|
  {
    if k < |trace| {
      var front := trace[..|trace| - 1];
      assert trace == front + [trace[|trace| - 1]] && trace[..k] == front[..k];
      Prefix(front, k);
    } else {
      assert trace[..k] == trace;
    }
  }

  /** At every moment of a trace, one backend call at most is in flight. */
  lemma {:induction false} OneCallInFlight(trace: seq<Note>, k: nat)
    requires k <= |trace| && Seen(trace).Watch?
    ensures Seen(trace[..k]).Watch? && Calls(trace[..k]) == if Seen(trace[..k]).flight.Some? then 1 else 0
  {
    Prefix(trace, k);
    if k > 0 {
      OneCallInFlight(trace, k - 1);
      Prefix(trace, k - 1);
      assert trace[..k][..k - 1] == trace[..k - 1];
    }
  }

  /** Every item that has left the line was taken once or dropped once, and no other item was. */
  lemma {:induction false} LeavesOnce(trace: seq<Note>, i: nat)
    requires Seen(trace).Watch?
    ensures Leaves(trace, i) == if i < Seen(trace).next then 1 else 0
  {
    if trace != [] {
      LeavesOnce(trace[..|trace| - 1], i);
    }
  }

  /** Items are taken in the order in which they were queued. */
  lemma {:induction false} TakenInOrder(trace: seq<Note>, a: nat, b: nat)
    requires Seen(trace).Watch? && a < b < |trace| && trace[a].Began? && trace[b].Began?
    ensures trace[a].i < trace[b].i
  {
    NextGrows(trace, a + 1, b);
    Prefix(trace, a + 1);
    Prefix(trace, b + 1);
    assert trace[..a + 1][..a] == trace[..a] && trace[..b + 1][..b] == trace[..b];
  }

  lemma {:induction false} NextGrows(trace: seq<Note>, a: nat, b: nat)
    requires Seen(trace).Watch? && a <= b <= |trace|
    ensures Seen(trace[..a]).Watch? && Seen(trace[..b]).Watch?
    ensures Seen(trace[..a]).next <= Seen(trace[..b]).next && Seen(trace[..a]).queued <= Seen(trace[..b]).queued
    decreases b
  {
    hide Seen;
    Prefix(trace, a);
    Prefix(trace, b);
    if a < b {
      NextGrows(trace, a, b - 1);
      SeenNext(trace, b - 1);
    }
  }

  /** After an item was taken and an abort came, the watch cannot allow a reply to that item. */
  lemma {:induction false} StaysSilenced(trace: seq<Note>, a: nat, b: nat, c: nat)
    requires Seen(trace).Watch? && a < b < c <= |trace| && trace[a].Began? && trace[b].Abort?
    ensures var w := Seen(trace[..c]);
            w.Watch? && trace[a].i < w.next && (w.silenced || w.current != Some(trace[a].i))
    decreases c
  {
    hide Seen;
    Prefix(trace, c);
    Prefix(trace, a + 1);
    NextGrows(trace, a + 1, c);
    SeenNext(trace, a);
    SeenNext(trace, c - 1);
    if b + 1 < c {
      StaysSilenced(trace, a, b, c - 1);
    }
  }

  lemma SeenNext(trace: seq<Note>, k: nat)
    requires k < |trace|
    ensures Seen(trace[..k + 1]) == See(Seen(trace[..k]), trace[k])
  {
    assert trace[..k + 1] == trace[..k] + [trace[k]];
    SeenPush(trace[..k], trace[k]);
  }

  /** No reply and no error message begins for an item that was taken before an abort. */
  lemma NoReplyAfterAbort(trace: seq<Note>, a: nat, b: nat, c: nat)
    requires Seen(trace).Watch? && a < b < c < |trace| && trace[a].Began? && trace[b].Abort? && trace[c].Replied?
    ensures trace[c].i != trace[a].i
  {
    StaysSilenced(trace, a, b, c);
    Prefix(trace, c + 1);
    assert trace[..c + 1][..c] == trace[..c];
  }

  /** An item that was waiting when an abort came is never taken. */
  lemma NothingOldAfterAbort(trace: seq<Note>, a: nat, b: nat, c: nat)
    requires Seen(trace).Watch? && a < b < c < |trace| && trace[a].Queued? && trace[b].Abort? && trace[c].Began?
    ensures trace[c].i > trace[a].i
  {
    hide Seen;
    NextGrows(trace, a + 1, b);
    NextGrows(trace, b, c);
    Prefix(trace, b + 1);
    Prefix(trace, c + 1);
    SeenNext(trace, a);
    SeenNext(trace, b);
    SeenNext(trace, c);
  }

  // Which message the backend is called for.

  /** The messages put in line, in order of arrival. */
  function Arrived(inputs: seq<Input>): seq<Item> {
    if inputs == [] then []
    else
      var last := inputs[|inputs| - 1];
      Arrived(inputs[..|inputs| - 1]) + (if last.Message? then [last.item] else [])
  }

  /** The line holds the messages that have not left it, and item `i` is the `i`th message. */
  predicate Carries(c: Chat, all: seq<Item>) {
    && c.gone <= |all| && c.items == all[c.gone..]
    && forall k :: 0 <= k < |c.drainers| && c.drainers[k].Working? ==>
         c.drainers[k].i < |all| && c.drainers[k].item == all[c.drainers[k].i]
  }

  lemma LoopHeadCarries(c: Chat, k: nat, all: seq<Item>)
    requires k < |c.drainers| && Carries(c, all)
    ensures Carries(LoopHead(c, k), all)
  {
  }

  lemma CatchCarries(c: Chat, k: nat, i: nat, epoch: nat, all: seq<Item>)
    requires k < |c.drainers| && Carries(c, all)
    ensures Carries(Catch(c, k, i, epoch), all)
  {
    hide LoopHead;
    LoopHeadCarries(c, k, all);
  }

  lemma EnqueueCarries(c: Chat, item: Item, all: seq<Item>)
    requires Carries(c, all)
    ensures Carries(Enqueue(c, item), all + [item])
  {
    hide LoopHead;
    var d := Noted(c, Queued(c.gone + |c.items|)).(items := c.items + [item]);
    assert (all + [item])[c.gone..] == all[c.gone..] + [item];
    if !c.running {
      LoopHeadCarries(d.(running := true, drainers := c.drainers + [Resuming]), |c.drainers|, all + [item]);
    }
  }

  lemma BackendCarries(c: Chat, k: nat, length: nat, all: seq<Item>)
    requires k < |c.drainers| && c.drainers[k].Working? && Carries(c, all)
    ensures Carries(BackendDone(c, k, length), all) && Carries(BackendFailed(c, k), all)
  {
    hide LoopHead;
    var w := c.drainers[k];
    LoopHeadCarries(Noted(c, Returned(w.i)), k, all);
    CatchCarries(Noted(c, Returned(w.i)), k, w.i, w.epoch, all);
  }

  lemma StepCarries(c: Chat, i: Input, all: seq<Item>)
    requires Carries(c, all)
    ensures Carries(Step(c, i), if i.Message? then all + [i.item] else all)
  {
    hide LoopHead, Catch, Enqueue, BackendDone, BackendFailed;
    match i {
      case Message(item) => EnqueueCarries(c, item, all);
      case Done(k, length) => if k < |c.drainers| && c.drainers[k].Working? { BackendCarries(c, k, length, all); }
      case Fail(k) => if k < |c.drainers| && c.drainers[k].Working? { BackendCarries(c, k, 0, all); }
      case Sent(k) => if k < |c.drainers| { LoopHeadCarries(c, k, all); }
      case Unsent(k) =>
        if k < |c.drainers| && c.drainers[k].Sending? {
          CatchCarries(c, k, c.drainers[k].i, c.drainers[k].epoch, all);
        }
      case _ =>
    }
  }

  /** In every run the backend works on the message that arrived with the item's number. */
  lemma {:induction false} EveryCallIsItsMessage(inputs: seq<Input>)
    ensures Carries(Run(inputs), Arrived(inputs))
  {
    hide Step, Carries;
    if inputs == [] {
      NothingCarried();
    } else {
      EveryCallIsItsMessage(inputs[..|inputs| - 1]);
      StepCarries(Run(inputs[..|inputs| - 1]), inputs[|inputs| - 1], Arrived(inputs[..|inputs| - 1]));
      assert Arrived(inputs[..|inputs| - 1]) + [] == Arrived(inputs[..|inputs| - 1]);
    }
  }

  lemma NothingCarried()
    ensures Carries(Run([]), Arrived([]))
  {
  }

  // The queue as the object it is.

  /** The queue of a chat. `drainers`, the suspended activations of the draining loop, and the history in
      `gone` and `trace` are there for the proof only; an activation's own variables are handed to the
      methods that go on from its await. */
  class ChatQueue {
    var items: seq<Item>
    var running: bool
    var abortEpoch: nat
    ghost var drainers: seq<Drainer>
    ghost var gone: nat
    ghost var trace: seq<Note>

    ghost function Model(): Chat
      reads this
    {
      Chat(items, running, abortEpoch, drainers, gone, trace)
    }

    constructor ()
      ensures Model() == START
    {
      items, running, abortEpoch, drainers, gone, trace := [], false, 0, [], 0, [];
    }

    /** From the loop head to the next await; answers the item the backend is called for, if any. */
    method Resume(ghost k: nat) returns (called: Option<Item>)
      requires k < |drainers|
      modifies this
      ensures Model() == LoopHead(old(Model()), k)
      ensures called == if old(items) == [] then None else Some(old(items[0]))
      ensures items == (if old(items) == [] then [] else old(items[1..])) && abortEpoch == old(abortEpoch)
      ensures running == (old(items) != [] && old(running))
    {
      if |items| > 0 {
        called := Some(items[0]);
        drainers := drainers[k := Working(gone, items[0], abortEpoch)];
        trace, gone := trace + [Began(gone)], gone + 1;
        items := items[1..];
      } else {
        called := None;
        running := false;
        drainers := drainers[..k] + drainers[k + 1..];
      }
    }

    method Enqueue(item: Item) returns (called: Option<Item>)
      modifies this
      ensures Model() == Step(old(Model()), Message(item))
      ensures old(running) ==> called == None && items == old(items) + [item]
      ensures !old(running) ==> called == Some((old(items) + [item])[0])
      ensures !old(running) && old(items) == [] ==> called == Some(item) && items == [] && running
    {
      trace := trace + [Queued(gone + |items|)];
      items := items + [item];
      called := None;
      if !running {
        running := true;
        drainers := drainers + [Resuming];
        called := Resume(|drainers| - 1);
      }
    }

    method Dispose()
      modifies this
      ensures Model() == Step(old(Model()), Disposal)
      ensures items == [] && running == old(running) && abortEpoch == old(abortEpoch)
    {
      trace, gone := trace + Drops(gone, gone + |items|), gone + |items|;
      items := [];
    }

    method AbortChat()
      modifies this
      ensures Model() == Step(old(Model()), AbortCommand)
      ensures items == [] && running == old(running) && abortEpoch == old(abortEpoch) + 1
    {
      trace, gone := trace + Drops(gone, gone + |items|) + [Abort], gone + |items|;
      items := [];
      abortEpoch := abortEpoch + 1;
    }

    /** The backend answered: a reply to an item that no abort has overtaken is sent in chunks. */
    method AfterBackend(ghost k: nat, item: Item, itemEpoch: nat, reply: string)
      returns (messages: seq<string>, called: Option<Item>)
      requires k < |drainers| && drainers[k].Working? && drainers[k].item == item && drainers[k].epoch == itemEpoch
      modifies this
      ensures Model() == Step(old(Model()), Done(k, |reply|))
      ensures itemEpoch != old(abortEpoch) ==> messages == []
      ensures itemEpoch == old(abortEpoch) && item.Prompt? ==> Flatten(messages) == reply
      ensures itemEpoch == old(abortEpoch) && item.NewSession? ==> messages == [SESSION_CREATED]
      ensures messages != [] ==> called == None && items == old(items) && running == old(running)
      ensures messages == [] ==> called == if old(items) == [] then None else Some(old(items[0]))
    {
      ghost var w := drainers[k];
      trace := trace + [Returned(w.i)];
      messages, called := [], None;
      if itemEpoch == abortEpoch {
        if item.NewSession? {
          messages := [SESSION_CREATED];
        } else {
          messages := Chunked(reply);
        }
      }
      if |messages| > 0 {
        trace := trace + [Replied(w.i)];
        drainers := drainers[k := Sending(w.i, w.epoch, |messages|)];
      } else {
        called := Resume(k);
      }
    }

    /** An error was caught, from the backend or from sending the reply. */
    method AfterError(ghost k: nat, itemEpoch: nat) returns (apologizes: bool, called: Option<Item>)
      requires k < |drainers| && (drainers[k].Working? || drainers[k].Sending?) && drainers[k].epoch == itemEpoch
      modifies this
      ensures Model() == Step(old(Model()), if old(drainers[k]).Working? then Fail(k) else Unsent(k))
      ensures apologizes == (itemEpoch == old(abortEpoch))
      ensures apologizes ==> called == None && items == old(items) && running == old(running)
      ensures !apologizes ==> called == if old(items) == [] then None else Some(old(items[0]))
    {
      ghost var i := drainers[k].i;
      if drainers[k].Working? { trace := trace + [Returned(i)]; }
      called := None;
      apologizes := itemEpoch == abortEpoch;
      if apologizes {
        trace := trace + [Replied(i)];
        drainers := drainers[k := Excusing(i)];
      } else {
        called := Resume(k);
      }
    }
  }
}
