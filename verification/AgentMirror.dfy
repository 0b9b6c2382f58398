/** The agent's record follows the events: what it holds at every moment is determined by the trace. */
module AgentMirror {
  import opened AgentEvents
  import opened AgentLoop
  import opened AgentSafety
  import opened Text

  /** The record after a trace, for a conversation that began with `base`. */
  function Reduced(base: seq<Message>, trace: seq<Event>): Agent {
    if trace == [] then Agent(base, None, {})
    else Reduce(Reduced(base, trace[..|trace| - 1]), trace[|trace| - 1])
  }

  function Announced(p: Phase): Option<Message> {
    if p.InTurn? then p.open else None
  }

  /** The ids of the calls that have started and not ended. */
  function ExecutingIds(p: Phase): set<string>
    requires Shaped(p)
  {
    if p.InTurn? && p.reply.Some? then
      set k | 0 <= k < |p.calls| && p.calls[k] == Executing :: p.reply.value.calls[k].id
    else {}
  }

  predicate DistinctIds(p: Phase) {
    p.InTurn? && p.reply.Some? && p.reply.value.Assistant? ==>
      var calls := p.reply.value.calls;
      forall j, k :: 0 <= j < k < |calls| ==> calls[j].id != calls[k].id
  }

  lemma StartIds(p: Phase, id: string, aborted: bool)
    requires Shaped(p)
    requires p.InTurn? && NextPhase(p, ToolStart(|p.calls|, id), aborted) != Malformed
    ensures var q := NextPhase(p, ToolStart(|p.calls|, id), aborted);
            ExecutingIds(q) == ExecutingIds(p) + {id} && DistinctIds(q) == DistinctIds(p)
  {
    var q := NextPhase(p, ToolStart(|p.calls|, id), aborted);
    assert q.calls[|p.calls|] == Executing;
    forall x | x in ExecutingIds(p) + {id} ensures x in ExecutingIds(q) {
      if x in ExecutingIds(p) {
        var k :| 0 <= k < |p.calls| && p.calls[k] == Executing && p.reply.value.calls[k].id == x;
        assert q.calls[k] == Executing;
      }
    }
  }

  lemma EndIds(p: Phase, position: nat, id: string, outcome: Outcome, aborted: bool)
    requires Shaped(p)
    requires var q := NextPhase(p, ToolEnd(position, id, outcome), aborted); q != Malformed
    ensures var q := NextPhase(p, ToolEnd(position, id, outcome), aborted);
            && ExecutingIds(p) - {id} <= ExecutingIds(q)
            && DistinctIds(q) == DistinctIds(p)
            && (DistinctIds(p) ==> ExecutingIds(q) == ExecutingIds(p) - {id})
  {
    var q := NextPhase(p, ToolEnd(position, id, outcome), aborted);
    forall x | x in ExecutingIds(p) - {id} ensures x in ExecutingIds(q) {
      var k :| 0 <= k < |p.calls| && p.calls[k] == Executing && p.reply.value.calls[k].id == x;
      assert q.calls[k] == Executing;
    }
    if DistinctIds(p) {
      forall x | x in ExecutingIds(q) ensures x in ExecutingIds(p) - {id} {
        var k :| 0 <= k < |q.calls| && q.calls[k] == Executing && q.reply.value.calls[k].id == x;
        assert p.calls[k] == Executing;
      }
    }
  }

  /** The record agrees with the grammar: the message being shown is the open one, and a call is pending
      only while it executes, and always then if no two calls of the reply share an id. */
  predicate Matches(a: Agent, p: Phase)
    requires Shaped(p)
  {
    && a.streaming == Announced(p)
    && a.pendingToolCalls <= ExecutingIds(p)
    && (DistinctIds(p) ==> a.pendingToolCalls == ExecutingIds(p))
  }

  lemma ReduceMatches(a: Agent, p: Phase, e: Event, aborted: bool)
    requires Shaped(p) && Matches(a, p) && NextPhase(p, e, aborted) != Malformed
    ensures Shaped(NextPhase(p, e, aborted)) && Matches(Reduce(a, e), NextPhase(p, e, aborted))
  {
    NextShaped(p, e, aborted);
    match e {
      case ToolStart(position, id) => StartIds(p, id, aborted);
      case ToolEnd(position, id, outcome) => EndIds(p, position, id, outcome, aborted);
      case _ =>
    }
  }

  lemma {:induction false} RecordMessages(base: seq<Message>, trace: seq<Event>)
    ensures Reduced(base, trace).messages == base + Delivered(trace)
  {
    if trace == [] {
      assert base + [] == base;
    } else {
      RecordMessages(base, trace[..|trace| - 1]);
    }
  }

  /** For every well-formed trace: the record shows the open message, and holds as pending the calls
      that execute. */
  lemma {:induction false} RecordMatchesTrace(base: seq<Message>, trace: seq<Event>)
    requires Follow(trace).phase != Malformed
    ensures Shaped(Follow(trace).phase) && Matches(Reduced(base, trace), Follow(trace).phase)
  {
    if trace != [] {
      var front, e := trace[..|trace| - 1], trace[|trace| - 1];
      assert Follow(trace) == Next(Follow(front), e);
      assert Reduced(base, trace) == Reduce(Reduced(base, front), e);
      hide Follow, Reduced, Matches, Shaped, Reduce, NextPhase;
      assert Follow(front).phase != Malformed by { MalformedStays(Follow(front), e); }
      RecordMatchesTrace(base, front);
      ReduceMatches(Reduced(base, front), Follow(front).phase, e, Follow(front).aborted);
    }
  }

  /** No call is pending when a turn ends, nor before its calls start. */
  lemma NothingPendingAtTurnEnd(base: seq<Message>, trace: seq<Event>, message: Message, results: seq<Message>)
    requires Follow(trace + [TurnEnd(message, results)]).phase != Malformed
    ensures Reduced(base, trace).pendingToolCalls == {}
    ensures Reduced(base, trace).streaming == None
  {
    FollowPush(trace, TurnEnd(message, results));
    RecordMatchesTrace(base, trace);
  }

  predicate Mirrors(s: State) {
    && s.agent == Reduced(s.base, s.trace)
    && (s.stage.Idle? ==> s.agent.streaming == None && s.agent.pendingToolCalls == {})
  }

  /** Recording one more event keeps the record in step with the trace. */
  ghost predicate EmitsMirror(s: State) {
    forall e: Event ::
      && Emit(s, e).agent == Reduced(s.base, Emit(s, e).trace)
      && Emit(s, e).base == s.base && Emit(s, e).stage == s.stage
  }

  lemma EmitMirrors(s: State)
    requires Mirrors(s)
    ensures EmitsMirror(s)
  {
    forall e: Event ensures Emit(s, e).agent == Reduced(s.base, Emit(s, e).trace) {
      assert (s.trace + [e])[..|s.trace|] == s.trace;
    }
  }

  lemma OpenMirrors(s: State)
    requires Mirrors(s) && EmitsMirror(s)
    ensures Mirrors(Open(s))
  {
    hide Reduced, Emit;
  }

  lemma InjectMirrors(s: State)
    requires Mirrors(s) && EmitsMirror(s)
    ensures Mirrors(Inject(s))
  {
    hide Reduced, Emit;
  }

  lemma DrainMirrors(s: State)
    requires Mirrors(s)
    ensures Mirrors(Drain(s))
  {
    hide Reduced, Queue.Head, Queue.Rest;
  }

  lemma CloseMirrors(s: State)
    requires Mirrors(s) && EmitsMirror(s)
    requires s.stage.Finished? ==> s.agent.streaming == None && s.agent.pendingToolCalls == {}
    ensures Mirrors(Close(s))
  {
    hide Reduced, Emit, ResultsOf, AllExecuted;
  }

  lemma StreamMirrors(s: State, i: Input)
    requires Mirrors(s) && EmitsMirror(s) && s.stage.Request?
    ensures Mirrors(Stream(s, i))
  {
    hide Reduced, Emit;
  }

  lemma DeliverMirrors(s: State, b: Batch)
    requires Mirrors(s) && EmitsMirror(s) && s.stage == Tools(b) && b.reply.Assistant?
    ensures Mirrors(DeliverResult(s, b))
  {
    hide Reduced, Emit;
  }

  lemma StartCallMirrors(s: State, b: Batch)
    requires Mirrors(s) && EmitsMirror(s) && s.stage == Tools(b) && b.reply.Assistant? && |b.calls| < |b.reply.calls|
    ensures Mirrors(StartCall(s, b))
  {
    hide Reduced, Emit;
  }

  /** What does not touch the record. */
  lemma SameRecord(s: State, t: State)
    requires Mirrors(s) && !t.stage.Idle? && t.agent == s.agent && t.base == s.base && t.trace == s.trace
    ensures Mirrors(t)
  {
    hide Reduced;
  }

  lemma BatchMirrors(s: State, b: Batch)
    requires Mirrors(s) && EmitsMirror(s) && s.stage == Tools(b) && b.reply.Assistant?
    ensures Mirrors(BatchStep(s, b))
  {
    hide Mirrors, EmitsMirror, ResultsDue, AllTerminate, Reportable, Executions, Launched, ResultsOf, DeliverResult,
         StartCall;
    if b.open || ResultsDue(b) {
      DeliverMirrors(s, b);
    } else if ExecutionDue(b) {
      SameRecord(s, BatchStep(s, b));
    } else if !b.launched && !NoFurtherCall(s, b) {
      StartCallMirrors(s, b);
    } else {
      SameRecord(s, BatchStep(s, b));
    }
  }

  lemma ToolMirrors(s: State, b: Batch, i: Input)
    requires Mirrors(s) && EmitsMirror(s) && s.stage == Tools(b) && b.reply.Assistant?
    ensures Mirrors(ToolInput(s, b, i))
  {
    BatchMirrors(s, b);
    hide Reduced, Emit, EmitsMirror, BatchStep;
    if i.Progressed? || i.Report? {
      EventMirrors(s, b, i);
    }
  }

  lemma EventMirrors(s: State, b: Batch, i: Input)
    requires Mirrors(s) && EmitsMirror(s) && s.stage == Tools(b) && b.reply.Assistant? && (i.Progressed? || i.Report?)
    ensures Mirrors(ToolInput(s, b, i))
  {
    hide Reduced, Emit, BatchStep;
  }

  lemma FinishedIsQuiet(s: State)
    requires Sound(s) && Mirrors(s) && s.stage.Finished?
    ensures s.agent.streaming == None && s.agent.pendingToolCalls == {}
  {
    assert Follow(s.trace).phase == Ended;
    RecordMatchesTrace(s.base, s.trace);
    hide Sound, Follow, Reduced;
  }

  lemma ReactMirrors(s: State, i: Input)
    requires Sound(s) && Mirrors(s)
    ensures Mirrors(React(s, i))
  {
    EmitMirrors(s);
    if s.stage.Finished? { FinishedIsQuiet(s); }
    hide Sound, EmitsMirror, Mirrors, Matches, Stream, ToolInput, Open, Inject, Close, Drain;
    if s.stage.Request? {
      StreamMirrors(s, i);
    } else if s.stage.Tools? && s.stage.batch.reply.Assistant? {
      ToolMirrors(s, s.stage.batch, i);
    } else if i.Go? {
      OpenMirrors(s);
      DrainMirrors(s);
      InjectMirrors(s);
      CloseMirrors(s);
    }
  }

  lemma AbortMirrors(s: State)
    requires Mirrors(s) && EmitsMirror(s)
    ensures Mirrors(Step(s, Abort))
  {
    hide Reduced, Emit, React, Continue, Begin, Dispatch;
  }

  lemma QueuingMirrors(s: State, i: Input)
    requires Mirrors(s) && (i.Steer? || i.FollowUp? || i.SetModes?)
    ensures Mirrors(Step(s, i))
  {
    hide Reduced, Emit, Queue.Add, React, Continue, Begin, Dispatch;
  }

  lemma HooksMirror(s: State, i: Input)
    requires Mirrors(s) && (i.Replace? || i.Answer? || i.Execute?)
    ensures Mirrors(Step(s, i))
  {
    hide Mirrors, React, Continue, Begin, Emit, Dispatch;
    if i.Replace? && s.stage.NextTurn? {
      SameRecord(s, Step(s, i));
    } else if i.Answer? && s.stage.ShouldStop? {
      SameRecord(s, Step(s, i));
    } else if i.Execute? && s.stage.ReplyDone? && s.stage.reply.Assistant? {
      DispatchMirrors(s, s.stage.reply, i.parallel);
    }
  }

  lemma DispatchMirrors(s: State, reply: Message, parallel: bool)
    requires Mirrors(s) && reply.Assistant?
    ensures Mirrors(Dispatch(s, reply, parallel))
  {
    hide Mirrors;
    SameRecord(s, Dispatch(s, reply, parallel));
  }

  lemma OutsideMirrors(s: State, i: Input)
    requires Mirrors(s) && EmitsMirror(s)
    requires i.Abort? || i.Execute? || i.Steer? || i.FollowUp? || i.SetModes? || i.Replace? || i.Answer?
    ensures Mirrors(Step(s, i))
  {
    hide Mirrors, EmitsMirror, Step;
    if i.Abort? {
      AbortMirrors(s);
    } else if i.Replace? || i.Answer? || i.Execute? {
      HooksMirror(s, i);
    } else {
      QueuingMirrors(s, i);
    }
  }

  lemma StartMirrors(s: State, i: Input)
    requires Mirrors(s) && s.stage.Idle? && (i.StartPrompt? || i.StartContinue?)
    ensures Mirrors(Step(s, i))
  {
    hide Queue.Head, Queue.Rest, Prompts;
  }

  lemma StepMirrors(s: State, i: Input)
    requires Sound(s) && Mirrors(s)
    ensures Mirrors(Step(s, i))
  {
    EmitMirrors(s);
    hide Sound, EmitsMirror, Mirrors, React, Continue, Begin, Dispatch, Emit;
    if i.StartPrompt? || i.StartContinue? {
      if s.stage.Idle? { StartMirrors(s, i); }
    } else if i.Abort? || i.Execute? || i.Steer? || i.FollowUp? || i.SetModes? || i.Replace? || i.Answer? {
      OutsideMirrors(s, i);
    } else {
      ReactMirrors(s, i);
    }
  }

  /** In every reachable state the agent's record is the one its trace gives. */
  lemma {:induction false} EveryRunMirrorsItsTrace(messages: seq<Message>, m: Mode, n: Mode, inputs: seq<Input>)
    ensures var s := AgentLoop.Run(Start(messages, m, n), inputs);
            && s.agent == Reduced(s.base, s.trace)
            && s.agent.messages == s.base + Delivered(s.trace)
            && Shaped(Follow(s.trace).phase) && Matches(s.agent, Follow(s.trace).phase)
  {
    var s := AgentLoop.Run(Start(messages, m, n), inputs);
    AllMirror(messages, m, n, inputs);
    EveryRunIsWellFormed(messages, m, n, inputs);
    RecordMessages(s.base, s.trace);
    RecordMatchesTrace(s.base, s.trace);
  }

  lemma {:induction false} AllMirror(messages: seq<Message>, m: Mode, n: Mode, inputs: seq<Input>)
    ensures Mirrors(AgentLoop.Run(Start(messages, m, n), inputs))
  {
    if inputs != [] {
      var front := inputs[..|inputs| - 1];
      AllMirror(messages, m, n, front);
      EveryRunIsWellFormed(messages, m, n, front);
      hide Sound, Mirrors, Step, Follow;
      StepMirrors(AgentLoop.Run(Start(messages, m, n), front), inputs[|inputs| - 1]);
    }
  }

  /** At every turn's end of every run no call is pending and no message is being shown. */
  lemma NothingPendingAtAnyTurnEnd(messages: seq<Message>, m: Mode, n: Mode, inputs: seq<Input>, k: nat)
    requires k < |AgentLoop.Run(Start(messages, m, n), inputs).trace|
    requires AgentLoop.Run(Start(messages, m, n), inputs).trace[k].TurnEnd?
    ensures var s := AgentLoop.Run(Start(messages, m, n), inputs);
            Reduced(s.base, s.trace[..k]).pendingToolCalls == {} && Reduced(s.base, s.trace[..k]).streaming == None
  {
    hide Follow, Reduced, AgentLoop.Run, Start;
    var s := AgentLoop.Run(Start(messages, m, n), inputs);
    EveryRunIsWellFormed(messages, m, n, inputs);
    PrefixFollows(s.trace, k + 1);
    assert s.trace[..k + 1] == s.trace[..k] + [s.trace[k]];
    NothingPendingAtTurnEnd(s.base, s.trace[..k], s.trace[k].message, s.trace[k].results);
  }
}
