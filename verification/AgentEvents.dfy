/** The events of an agent run, and the grammar that every run's events follow. */
module AgentEvents {
  import opened Text

  datatype StopReason = EndTurn | Length | ToolUse | Failed | Aborted

  datatype ToolCall = ToolCall(id: string, name: string)

  datatype Outcome = Outcome(text: string, isError: bool, terminate: bool)

  /** How a user message came into the conversation. */
  datatype Source = Prompted | Steered | FollowedUp

  datatype Message =
    | User(text: string, source: Source)
    | Assistant(text: string, stop: StopReason, calls: seq<ToolCall>)
    | ToolResult(callId: string, outcome: Outcome)

  /** `position` is the place of a tool call in its assistant message. `AbortRequested` is not an event
      of the agent; it marks when the abort signal was raised. */
  datatype Event =
    | AgentStart
    | AgentEnd(messages: seq<Message>)
    | TurnStart
    | TurnEnd(message: Message, results: seq<Message>)
    | MessageStart(message: Message)
    | MessageUpdate(message: Message)
    | MessageEnd(message: Message)
    | ToolStart(position: nat, id: string)
    | ToolUpdate(position: nat, id: string)
    | ToolEnd(position: nat, id: string, outcome: Outcome)
    | AbortRequested

  /** A tool call whose execution has started. */
  datatype Execution = Executing | Executed(outcome: Outcome)

  /** Where a run stands according to its events. In a turn: the message being delivered, the assistant
      message once it is complete, the calls started so far and the number of results delivered. */
  datatype Phase =
    | NotStarted
    | BetweenTurns(some: bool)
    | InTurn(open: Option<Message>, reply: Option<Message>, calls: seq<Execution>, results: nat)
    | Ended
    | Malformed

  datatype Progress = Progress(phase: Phase, aborted: bool)

  /** The outcome of a call in a reply that was cut off by the length limit. */
  const REFUSED_BY_LENGTH := Outcome("Response truncated", true, false)

  const NEW_TURN := InTurn(None, None, [], 0)

  function ResultOf(call: ToolCall, e: Execution): Message
    requires e.Executed?
  {
    ToolResult(call.id, e.outcome)
  }

  predicate AllExecuted(calls: seq<Execution>) {
    forall k :: 0 <= k < |calls| ==> calls[k].Executed?
  }

  function ResultsOf(calls: seq<ToolCall>, executions: seq<Execution>): seq<Message>
    requires |executions| <= |calls| && AllExecuted(executions)
  {
    seq(|executions|, k requires 0 <= k < |executions| => ResultOf(calls[k], executions[k]))
  }

  /** A turn may end with a failed or aborted reply and no tool call; else every call of the reply has
      been executed, or the abort signal was raised and a first part of them has (all of them even then
      if the reply was cut off, for such calls are only refused). */
  predicate TurnComplete(reply: Message, calls: seq<Execution>, aborted: bool) {
    && reply.Assistant?
    && |calls| <= |reply.calls|
    && (if reply.stop == Failed || reply.stop == Aborted then calls == []
        else |calls| == |reply.calls| || (reply.stop != Length && aborted && 0 < |calls|))
  }

  predicate Running(p: Phase, position: nat, id: string) {
    && p.InTurn? && p.reply.Some? && p.reply.value.Assistant? && |p.calls| <= |p.reply.value.calls|
    && position < |p.calls| && p.calls[position] == Executing && p.reply.value.calls[position].id == id
  }

  /** A message may start a turn's delivery if none is being delivered: user messages come before the
      reply, one reply comes next, and the result of call number `results` after that. */
  predicate MayStart(p: Phase, m: Message)
    requires p.InTurn?
  {
    && p.open.None?
    && match p.reply
       case None => !m.ToolResult?
       case Some(reply) =>
         && reply.Assistant? && |p.calls| <= |reply.calls|
         && p.results < |p.calls| && p.calls[p.results].Executed?
         && m == ResultOf(reply.calls[p.results], p.calls[p.results])
  }

  function NextPhase(p: Phase, e: Event, aborted: bool): Phase {
    match e
    case AgentStart => if p == NotStarted then BetweenTurns(false) else Malformed
    case AgentEnd(_) => if p == BetweenTurns(true) then Ended else Malformed
    case TurnStart => if p.BetweenTurns? then NEW_TURN else Malformed
    case TurnEnd(message, results) =>
      if p.InTurn? && p.open.None? && p.reply == Some(message) && AllExecuted(p.calls) && p.results == |p.calls|
         && TurnComplete(message, p.calls, aborted) && results == ResultsOf(message.calls, p.calls)
      then BetweenTurns(true) else Malformed
    case MessageStart(m) =>
      if p.InTurn? && MayStart(p, m) then p.(open := Some(m)) else Malformed
    case MessageUpdate(m) =>
      if p.InTurn? && p.open.Some? && p.open.value.Assistant? && m.Assistant? then p.(open := Some(m)) else Malformed
    case MessageEnd(m) =>
      if !p.InTurn? || p.open.None? then Malformed
      else if p.open.value.Assistant? then
        if m.Assistant? then p.(open := None, reply := Some(m)) else Malformed
      else if m != p.open.value then Malformed
      else if m.ToolResult? then p.(open := None, results := p.results + 1)
      else p.(open := None)
    case ToolStart(position, id) =>
      if p.InTurn? && p.open.None? && p.reply.Some? && p.reply.value.Assistant?
         && position == |p.calls| < |p.reply.value.calls|
         && p.reply.value.calls[position].id == id
      then p.(calls := p.calls + [Executing]) else Malformed
    case ToolUpdate(position, id) =>
      if Running(p, position, id) && p.reply.value.stop != Length then p else Malformed
    case ToolEnd(position, id, outcome) =>
      if Running(p, position, id) && (p.reply.value.stop == Length ==> outcome == REFUSED_BY_LENGTH)
      then p.(calls := p.calls[position := Executed(outcome)]) else Malformed
    case AbortRequested => p
  }

  function Next(p: Progress, e: Event): Progress {
    Progress(NextPhase(p.phase, e, p.aborted), p.aborted || e.AbortRequested?)
  }

  /** Reads a trace from the start of a run. */
  function Follow(trace: seq<Event>): Progress {
    if trace == [] then Progress(NotStarted, false)
    else Next(Follow(trace[..|trace| - 1]), trace[|trace| - 1])
  }

  lemma FollowPush(trace: seq<Event>, e: Event)
    ensures Follow(trace + [e]) == Next(Follow(trace), e)
  {
    assert (trace + [e])[..|trace|] == trace;
  }

  lemma MalformedStays(p: Progress, e: Event)
    ensures p.phase == Malformed ==> Next(p, e).phase == Malformed
  {
  }

  /** What a well-formed trace starts with is well-formed. */
  lemma {:induction false} PrefixFollows(trace: seq<Event>, k: nat)
    requires k <= |trace| && Follow(trace).phase != Malformed
    ensures Follow(trace[..k]).phase != Malformed
    decreases |trace|
  {
    hide NextPhase;
    if k < |trace| {
      var front, e := trace[..|trace| - 1], trace[|trace| - 1];
      MalformedStays(Follow(front), e);
      PrefixFollows(front, k);
      assert front[..k] == trace[..k];
    } else {
      assert trace[..k] == trace;
    }
  }

  // What the grammar says about a complete trace.

  function Starts(trace: seq<Event>): nat {
    if trace == [] then 0
    else Starts(trace[..|trace| - 1]) + (if trace[|trace| - 1].ToolStart? then 1 else 0)
  }

  function Finishes(trace: seq<Event>): nat {
    if trace == [] then 0
    else Finishes(trace[..|trace| - 1]) + (if trace[|trace| - 1].ToolEnd? then 1 else 0)
  }

  /** The messages delivered, in order. */
  function Delivered(trace: seq<Event>): seq<Message> {
    if trace == [] then []
    else
      var e := trace[|trace| - 1];
      Delivered(trace[..|trace| - 1]) + (if e.MessageEnd? then [e.message] else [])
  }

  function CountResults(messages: seq<Message>): nat {
    if messages == [] then 0
    else CountResults(messages[..|messages| - 1]) + (if messages[|messages| - 1].ToolResult? then 1 else 0)
  }

  function CountExecuted(calls: seq<Execution>): nat {
    if calls == [] then 0
    else CountExecuted(calls[..|calls| - 1]) + (if calls[|calls| - 1].Executed? then 1 else 0)
  }

  lemma {:induction false} ExecutedUpdate(calls: seq<Execution>, k: nat, outcome: Outcome)
    requires k < |calls| && calls[k] == Executing
    ensures CountExecuted(calls[k := Executed(outcome)]) == CountExecuted(calls) + 1
  {
    var front := calls[..|calls| - 1];
    if k < |front| {
      ExecutedUpdate(front, k, outcome);
      assert calls[k := Executed(outcome)][..|calls| - 1] == front[k := Executed(outcome)];
    } else {
      assert calls[k := Executed(outcome)][..k] == front;
    }
  }

  lemma {:induction false} AllExecutedCount(calls: seq<Execution>)
    requires AllExecuted(calls)
    ensures CountExecuted(calls) == |calls|
  {
    if calls != [] {
      AllExecutedCount(calls[..|calls| - 1]);
    }
  }

  /** Calls started, executions ended and results delivered in the turn that is under way. */
  function Under(p: Phase): (nat, nat, nat) {
    if p.InTurn? then (|p.calls|, CountExecuted(p.calls), p.results) else (0, 0, 0)
  }

  /** What an event adds to the calls started, ended and answered. */
  function Adds(e: Event): (int, int, int) {
    (if e.ToolStart? then 1 else 0,
     if e.ToolEnd? then 1 else 0,
     if e.MessageEnd? && e.message.ToolResult? then 1 else 0)
  }

  lemma BalanceStep(p: Phase, e: Event, aborted: bool)
    requires NextPhase(p, e, aborted) != Malformed
    ensures var (a, b, c) := Under(p);
            var (a', b', c') := Under(NextPhase(p, e, aborted));
            var (x, y, z) := Adds(e);
            b' - a' == b - a + y - x && c' - a' == c - a + z - x
  {
    match e {
      case ToolEnd(position, id, outcome) =>
        ExecutedUpdate(p.calls, position, outcome);
      case ToolStart(_, _) =>
        assert (p.calls + [Executing])[..|p.calls|] == p.calls;
      case TurnEnd(_, _) =>
        AllExecutedCount(p.calls);
      case _ =>
    }
  }

  lemma DeliveredPush(trace: seq<Event>, e: Event)
    ensures Starts(trace + [e]) == Starts(trace) + Adds(e).0
    ensures Finishes(trace + [e]) == Finishes(trace) + Adds(e).1
    ensures Delivered(trace + [e]) == Delivered(trace) + (if e.MessageEnd? then [e.message] else [])
    ensures CountResults(Delivered(trace + [e])) == CountResults(Delivered(trace)) + Adds(e).2
  {
    assert (trace + [e])[..|trace|] == trace;
    var d := Delivered(trace);
    if e.MessageEnd? {
      assert (d + [e.message])[..|d|] == d;
    } else {
      assert d + [] == d;
    }
  }

  lemma {:induction false} Balance(trace: seq<Event>)
    requires Follow(trace).phase != Malformed
    ensures var (a, b, c) := Under(Follow(trace).phase);
            && Finishes(trace) - Starts(trace) == b - a
            && CountResults(Delivered(trace)) - Starts(trace) == c - a
  {
    if trace != [] {
      var front, e := trace[..|trace| - 1], trace[|trace| - 1];
      assert trace == front + [e];
      Balance(front);
      DeliveredPush(front, e);
      BalanceStep(Follow(front).phase, e, Follow(front).aborted);
    }
  }

  /** In a complete trace every tool call that was started ended once and was answered once. */
  lemma EveryCallIsAnswered(trace: seq<Event>)
    requires Follow(trace).phase == Ended
    ensures Starts(trace) == Finishes(trace) == CountResults(Delivered(trace))
  {
    Balance(trace);
  }

  // Calls within a turn.

  predicate Shaped(p: Phase) {
    p.InTurn? ==>
      && (p.reply.None? ==> p.calls == [])
      && (p.reply.Some? ==> p.reply.value.Assistant? && |p.calls| <= |p.reply.value.calls|)
      && (p.open.Some? && p.open.value.Assistant? ==> p.reply.None?)
  }

  lemma NextShaped(p: Phase, e: Event, aborted: bool)
    requires Shaped(p)
    ensures Shaped(NextPhase(p, e, aborted))
  {
  }

  lemma {:induction false} ShapedTrace(trace: seq<Event>)
    ensures Shaped(Follow(trace).phase)
  {
    if trace != [] {
      ShapedTrace(trace[..|trace| - 1]);
      NextShaped(Follow(trace[..|trace| - 1]).phase, trace[|trace| - 1], Follow(trace[..|trace| - 1]).aborted);
    }
  }

  /** A turn ends with the results of its calls in the order of the reply: of all of them, or of the first
      ones if the abort signal was raised. */
  lemma TurnEndCovers(trace: seq<Event>, message: Message, results: seq<Message>)
    requires Follow(trace + [TurnEnd(message, results)]).phase != Malformed
    ensures message.Assistant? && |results| <= |message.calls|
    ensures forall k :: 0 <= k < |results| ==> results[k].ToolResult? && results[k].callId == message.calls[k].id
    ensures if message.stop == Failed || message.stop == Aborted then results == []
            else |results| == |message.calls| || (Follow(trace).aborted && message.stop != Length && results != [])
  {
    hide Follow;
    FollowPush(trace, TurnEnd(message, results));
  }

  /** The event is no boundary of a turn and no start or end of call `k`. */
  predicate LeavesCall(e: Event, k: nat) {
    !e.TurnStart? && !e.TurnEnd? && !(e.ToolEnd? && e.position == k) && !(e.ToolStart? && e.position == k)
  }

  predicate StartedAt(trace: seq<Event>, i: nat, k: nat, id: string) {
    && i < |trace| && trace[i] == ToolStart(k, id)
    && forall m :: i < m < |trace| ==> LeavesCall(trace[m], k)
  }

  /** A call that is executing has been started, once, and not ended since. */
  lemma {:induction false} ExecutingSinceStart(trace: seq<Event>, k: nat) returns (i: nat)
    requires var p := Follow(trace).phase;
             trace != [] && p.InTurn? && k < |p.calls| && p.calls[k] == Executing
    ensures var p := Follow(trace).phase;
            p.reply.Some? && p.reply.value.Assistant? && k < |p.reply.value.calls|
            && StartedAt(trace, i, k, p.reply.value.calls[k].id)
  {
    var front, e := trace[..|trace| - 1], trace[|trace| - 1];
    assert trace == front + [e];
    ShapedTrace(front);
    ExecutingStep(Follow(front), e, k);
    hide Follow, NextPhase, Shaped;
    FollowPush(front, e);
    if e.ToolStart? && e.position == k {
      i := |front|;
    } else {
      i := ExecutingSinceStart(front, k);
    }
  }

  /** A call that executes after an event was started by it, or executed before it. */
  lemma ExecutingStep(p: Progress, e: Event, k: nat)
    requires Shaped(p.phase)
    requires var q := Next(p, e).phase; q.InTurn? && k < |q.calls| && q.calls[k] == Executing
    ensures var q := Next(p, e).phase;
            && q.reply.Some? && q.reply.value.Assistant? && k < |q.reply.value.calls|
            && if e.ToolStart? && e.position == k then e.id == q.reply.value.calls[k].id
               else p.phase.InTurn? && k < |p.phase.calls| && p.phase.calls[k] == Executing
                    && p.phase.reply == q.reply && LeavesCall(e, k)
  {
    NextShaped(p.phase, e, p.aborted);
  }

  /** Every update and every end of a call comes after the start of that call, in the same turn, with no
      end of it in between. */
  lemma UpdatesAndEndsFollowTheirStart(trace: seq<Event>, e: Event) returns (i: nat)
    requires (e.ToolUpdate? || e.ToolEnd?) && Follow(trace + [e]).phase != Malformed
    ensures StartedAt(trace, i, e.position, e.id)
  {
    FollowPush(trace, e);
    i := ExecutingSinceStart(trace, e.position);
  }

  predicate RefusedOnly(p: Phase) {
    p.InTurn? && p.reply.Some? && p.reply.value.Assistant? && p.reply.value.stop == Length ==>
      forall k :: 0 <= k < |p.calls| && p.calls[k].Executed? ==> p.calls[k].outcome == REFUSED_BY_LENGTH
  }

  /** No call of a reply that was cut off is answered with anything but a refusal. */
  lemma {:induction false} CutOffCallsAreRefused(trace: seq<Event>)
    requires Follow(trace).phase != Malformed
    ensures RefusedOnly(Follow(trace).phase)
  {
    if trace != [] {
      var front := trace[..|trace| - 1];
      CutOffCallsAreRefused(front);
      ShapedTrace(front);
    }
  }
}
