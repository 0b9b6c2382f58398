/** When the loop goes on: a further turn has tool results to answer or new messages to deliver, and a run
    does not stop by itself before that. */
module AgentTurns {
  import opened AgentEvents
  import opened AgentLoop
  import opened AgentSafety
  import opened Text

  /** The last turn that has ended. */
  function LastTurn(trace: seq<Event>): Option<Event> {
    if trace == [] then None
    else if trace[|trace| - 1].TurnEnd? then Some(trace[|trace| - 1])
    else LastTurn(trace[..|trace| - 1])
  }

  predicate Ends(m: Message) {
    m.ToolResult? && m.outcome.terminate
  }

  /** A turn asks for another one if it has tool results, unless every one of them says that it ends the
      work; results of a reply that was cut off always ask. */
  predicate Wants(turn: Option<Event>) {
    && turn.Some? && turn.value.TurnEnd? && turn.value.message.Assistant?
    && turn.value.results != []
    && (turn.value.message.stop == Length || exists k :: 0 <= k < |turn.value.results| && !Ends(turn.value.results[k]))
  }

  /** What the loop's flag says about the last turn. */
  predicate Justified(s: State) {
    match s.stage
    case LoopHead =>
      || s.firstTurn
      || ((s.hasMore ==> Wants(LastTurn(s.trace)) || s.pending != []) && (Wants(LastTurn(s.trace)) ==> s.hasMore))
    case TurnEnding(reply, executions, last) =>
      !last && reply.Assistant? && AllExecuted(executions) && |executions| <= |reply.calls| ==>
        s.hasMore == Wants(Some(TurnEnd(reply, ResultsOf(reply.calls, executions))))
    case NextTurn | ShouldStop | Poll => s.hasMore == Wants(LastTurn(s.trace))
    case FollowPoll => !Wants(LastTurn(s.trace))
    case _ => true
  }

  lemma EmitTurns(s: State, e: Event)
    ensures LastTurn(Emit(s, e).trace) == if e.TurnEnd? then Some(e) else LastTurn(s.trace)
    ensures var t := Emit(s, e);
            t.stage == s.stage && t.hasMore == s.hasMore && t.pending == s.pending && t.firstTurn == s.firstTurn
  {
    assert (s.trace + [e])[..|s.trace|] == s.trace;
  }

  lemma PollJustified(s: State)
    requires Justified(s) && s.stage.Poll?
    ensures Justified(Drain(s))
  {
    hide Wants, LastTurn, Queue.Head, Queue.Rest;
  }

  lemma FirstFlag(s: State)
    requires Sound(s)
    ensures s.stage.FirstPoll? ==> s.firstTurn
  {
  }

  lemma FirstPollJustified(s: State)
    requires s.firstTurn && s.stage.FirstPoll?
    ensures Justified(Drain(s))
  {
    hide Wants, LastTurn, Queue.Head, Queue.Rest;
  }

  lemma FollowPollJustified(s: State)
    requires Justified(s) && s.stage.FollowPoll?
    ensures Justified(Drain(s))
  {
    hide Wants, LastTurn, Queue.Rest;
  }

  lemma LoopHeadJustified(s: State)
    requires Justified(s) && s.stage.LoopHead? && (s.firstTurn ==> s.hasMore)
    ensures Justified(Inject(s))
  {
    hide Wants, LastTurn, Emit;
    EmitTurns(s, TurnStart);
  }

  lemma InjectJustified(s: State)
    requires Justified(s) && (s.stage.InjectStart? || s.stage.InjectEnd?)
    ensures Justified(Inject(s))
  {
    hide Wants, LastTurn, Emit;
    if s.stage.InjectStart? {
      assert Justified(Inject(s));
    } else {
      assert Justified(Inject(s));
    }
  }

  lemma TurnEndJustified(s: State)
    requires Justified(s) && s.stage.TurnEnding?
    ensures Justified(Close(s))
  {
    hide Wants, LastTurn, Emit, ResultsOf, AllExecuted;
    var reply, executions := s.stage.reply, s.stage.executions;
    if reply.Assistant? && AllExecuted(executions) && |executions| <= |reply.calls| {
      EmitTurns(s, TurnEnd(reply, ResultsOf(reply.calls, executions)));
      assert Justified(Close(s));
    }
  }

  lemma CloseJustified(s: State)
    requires Justified(s) && !s.stage.TurnEnding?
    ensures Justified(Close(s))
  {
    hide Wants, LastTurn, Emit;
  }

  lemma OpenJustified(s: State)
    requires Justified(s)
    ensures Justified(Open(s))
  {
    hide Wants, LastTurn, Emit;
  }

  lemma AdvanceJustified(s: State)
    requires Justified(s) && Sound(s)
    ensures Justified(Advance(s))
  {
    hide Justified, Sound, Open, Inject, Drain, Close;
    match s.stage {
      case FirstPoll => FirstFlag(s); FirstPollJustified(s);
      case Poll => PollJustified(s);
      case FollowPoll => FollowPollJustified(s);
      case LoopHead => LoopHeadFlag(s); LoopHeadJustified(s);
      case InjectStart(_) | InjectEnd(_) => InjectJustified(s);
      case TurnEnding(_, _, _) => TurnEndJustified(s);
      case Starting | FirstTurn | PromptStart(_) | PromptEnd(_) => OpenJustified(s);
      case _ => CloseJustified(s);
    }
  }

  lemma LoopHeadFlag(s: State)
    requires Sound(s) && s.stage.LoopHead?
    ensures s.firstTurn ==> s.hasMore
  {
  }

  /** The flag computed from the calls is what the results say. */
  lemma FlagIsWants(b: Batch)
    requires b.reply.Assistant? && (b.style == Truncated <==> b.reply.stop == Length)
    requires b.calls != [] && |b.calls| <= |b.reply.calls| && Reportable(b.calls, |b.calls|)
    ensures AllExecuted(Executions(b.calls))
    ensures (b.style == Truncated || !AllTerminate(b.calls))
         == Wants(Some(TurnEnd(b.reply, ResultsOf(b.reply.calls, Executions(b.calls)))))
  {
    var results := ResultsOf(b.reply.calls, Executions(b.calls));
    assert forall k :: 0 <= k < |results| ==> Ends(results[k]) == b.calls[k].outcome.terminate;
    if b.style != Truncated && !AllTerminate(b.calls) {
      var k :| 0 <= k < |b.calls| && !b.calls[k].outcome.terminate;
      assert !Ends(results[k]);
    }
  }

  lemma BatchHasCalls(s: State, b: Batch)
    requires Sound(s) && s.stage == Tools(b)
    ensures b.reply.Assistant? && (b.style == Truncated <==> b.reply.stop == Length) && |b.calls| <= |b.reply.calls|
    ensures b.launched || NoFurtherCall(s, b) ==> b.calls != []
  {
  }

  lemma EndBatchJustified(s: State, b: Batch)
    requires Sound(s) && s.stage == Tools(b) && b.reply.Assistant? && (b.launched || NoFurtherCall(s, b))
    ensures Justified(EndBatch(s, b))
  {
    hide Sound, Wants, AllTerminate, Executions, ResultsOf, AllExecuted, NoFurtherCall;
    BatchHasCalls(s, b);
    if EndBatch(s, b) != s {
      FlagIsWants(b);
      assert Justified(EndBatch(s, b));
    }
  }

  lemma BatchJustified(s: State, b: Batch)
    requires Sound(s) && Justified(s) && s.stage == Tools(b) && b.reply.Assistant?
    ensures Justified(BatchStep(s, b))
  {
    hide Sound, Wants, LastTurn, Emit, EndBatch, ResultsDue, Launched, NoFurtherCall;
    if b.open || ResultsDue(b) {
      assert Justified(DeliverResult(s, b));
    } else if ExecutionDue(b) {
      assert Justified(SetCall(s, b, |b.calls| - 1, Busy));
    } else if !b.launched && !NoFurtherCall(s, b) {
      CallsLeft(s, b);
      assert Justified(StartCall(s, b));
    } else if b.style == Parallel && !b.launched {
      assert Justified(Launch(s, b));
    } else {
      EndBatchJustified(s, b);
    }
  }

  lemma CallsLeft(s: State, b: Batch)
    requires b.reply.Assistant? && !NoFurtherCall(s, b)
    ensures |b.calls| < |b.reply.calls|
  {
  }

  lemma ToolsJustified(s: State, b: Batch, i: Input)
    requires Sound(s) && Justified(s) && s.stage == Tools(b) && b.reply.Assistant?
    ensures Justified(ToolInput(s, b, i))
  {
    hide Sound, Wants, LastTurn, Emit, BatchStep;
    if i.Go? {
      BatchJustified(s, b);
    } else {
      StaysInTools(s, b, i);
    }
  }

  lemma StaysInTools(s: State, b: Batch, i: Input)
    requires s.stage == Tools(b) && b.reply.Assistant? && !i.Go?
    ensures ToolInput(s, b, i).stage.Tools?
  {
    hide BatchStep, Reduce;
  }

  lemma StreamJustified(s: State, i: Input)
    requires s.stage.Request?
    ensures Justified(Stream(s, i))
  {
    hide Wants, LastTurn, Emit;
  }

  lemma DispatchJustified(s: State, parallel: bool)
    requires s.stage.ReplyDone? && s.stage.reply.Assistant?
    ensures Justified(Dispatch(s, s.stage.reply, parallel))
  {
    hide LastTurn;
  }

  lemma ReactJustified(s: State, i: Input)
    requires Justified(s) && Sound(s)
    ensures Justified(React(s, i))
  {
    hide Justified, Sound, Stream, ToolInput, Advance;
    if s.stage.Request? {
      StreamJustified(s, i);
    } else if s.stage.Tools? && s.stage.batch.reply.Assistant? {
      ToolsJustified(s, s.stage.batch, i);
    } else if i.Go? {
      AdvanceJustified(s);
    }
  }

  lemma OutsideJustified(s: State, i: Input)
    requires Justified(s) && (i.Steer? || i.FollowUp? || i.SetModes? || i.Replace? || i.Answer?)
    ensures Justified(Step(s, i))
  {
    hide Wants, LastTurn, Queue.Add, ResultsOf, AllExecuted, React, Continue, Begin, Dispatch, Emit;
  }

  lemma AbortJustified(s: State)
    requires Justified(s)
    ensures Justified(Step(s, Abort))
  {
    hide Wants, LastTurn, Emit, ResultsOf, AllExecuted;
    EmitTurns(s, AbortRequested);
  }

  lemma StartJustified(s: State, i: Input)
    requires Justified(s) && s.stage.Idle? && (i.StartPrompt? || i.StartContinue?)
    ensures Justified(Step(s, i))
  {
    hide Wants, LastTurn, Queue.Head, Queue.Rest, Prompts;
  }

  lemma StepJustified(s: State, i: Input)
    requires Justified(s) && Sound(s)
    ensures Justified(Step(s, i))
  {
    hide Justified, Sound, React, Dispatch, Begin, Continue, Emit;
    match i {
      case Steer(_) | FollowUp(_) | SetModes(_, _) | Replace(_) | Answer(_) => OutsideJustified(s, i);
      case Abort => AbortJustified(s);
      case StartPrompt(_) | StartContinue => if s.stage.Idle? { StartJustified(s, i); }
      case Execute(parallel) => if s.stage.ReplyDone? && s.stage.reply.Assistant? { DispatchJustified(s, parallel); }
      case _ => ReactJustified(s, i);
    }
  }

  lemma {:induction false} AllJustified(messages: seq<Message>, m: Mode, n: Mode, inputs: seq<Input>)
    ensures Justified(AgentLoop.Run(Start(messages, m, n), inputs))
  {
    if inputs != [] {
      var front := inputs[..|inputs| - 1];
      AllJustified(messages, m, n, front);
      EveryRunIsWellFormed(messages, m, n, front);
      hide Justified, Sound, Step, Follow;
      StepJustified(AgentLoop.Run(Start(messages, m, n), front), inputs[|inputs| - 1]);
    }
  }

  /** After the first turn, a further turn begins exactly if the last one asks for it or there are new
      messages; and the run stops by itself only if it does not ask and no follow-up is queued. */
  lemma TurnsAreJustified(messages: seq<Message>, m: Mode, n: Mode, inputs: seq<Input>)
    ensures var s := AgentLoop.Run(Start(messages, m, n), inputs);
            var t := Step(s, Go);
            && (s.stage.LoopHead? && !s.firstTurn ==>
                  (t.stage.InjectStart? <==> Wants(LastTurn(s.trace)) || s.pending != []))
            && (s.stage.FollowPoll? && t.stage.Finishing? ==> !Wants(LastTurn(s.trace)) && s.followUp.items == [])
  {
    var s := AgentLoop.Run(Start(messages, m, n), inputs);
    AllJustified(messages, m, n, inputs);
    hide Wants, LastTurn, AgentLoop.Run;
    if s.stage.LoopHead? {
      LoopHeadBranch(s);
    } else if s.stage.FollowPoll? {
      FollowPollBranch(s);
    }
  }

  lemma LoopHeadBranch(s: State)
    requires s.stage.LoopHead?
    ensures Step(s, Go).stage.InjectStart? <==> s.hasMore || s.pending != []
  {
  }

  lemma FollowPollBranch(s: State)
    requires s.stage.FollowPoll?
    ensures Step(s, Go).stage.Finishing? ==> s.followUp.items == []
  {
  }
}
