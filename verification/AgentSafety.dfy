/** What holds in every reachable state of the agent loop, whatever the model, the tools and the user do. */
module AgentSafety {
  import opened AgentEvents
  import opened AgentLoop
  import opened Text

  predicate AllUser(messages: seq<Message>) {
    forall k :: 0 <= k < |messages| ==> messages[k].User?
  }

  /** Calls that are refused because the reply was cut off: none of them is ever executed. */
  predicate Unrun(calls: seq<Call>) {
    forall k :: 0 <= k < |calls| ==> (calls[k].Settled? || calls[k].Reported?) && calls[k].outcome == REFUSED_BY_LENGTH
  }

  predicate BatchOk(b: Batch, aborted: bool) {
    && b.reply.Assistant? && b.reply.stop != Failed && b.reply.stop != Aborted
    && 0 < |b.reply.calls| && |b.calls| <= |b.reply.calls|
    && b.results <= |b.calls| && Reportable(b.calls, b.results)
    && (b.open ==> b.results < |b.calls| && b.calls[b.results].Reported?)
    && (b.style == Truncated <==> b.reply.stop == Length)
    && (b.style == Truncated ==> Unrun(b.calls))
    && (b.launched ==> b.calls != [] && (|b.calls| == |b.reply.calls| || aborted))
    && (b.style == Parallel && !b.launched ==> b.results == 0 && !b.open)
    && (b.style != Parallel ==> !b.launched)
  }

  /** What each stage relies on. */
  predicate Control(s: State) {
    && AllUser(s.prompts) && AllUser(s.pending) && AllUser(s.steering.items) && AllUser(s.followUp.items)
    && (s.pending != [] ==> s.stage.LoopHead? || s.stage.InjectStart? || s.stage.InjectEnd?)
    && match s.stage
       case PromptStart(k) => k <= |s.prompts|
       case PromptEnd(k) => k < |s.prompts|
       case Starting | FirstTurn | FirstPoll => s.firstTurn && s.hasMore
       case LoopHead => s.firstTurn ==> s.hasMore
       case InjectStart(k) => k <= |s.pending|
       case InjectEnd(k) => k < |s.pending|
       case Request(partial) => partial.Some? ==> partial.value.Assistant? && s.context != []
       case ReplyStart(reply) => reply.Assistant?
       case ReplyEnd(reply) => reply.Assistant?
       case ReplyDone(reply) => reply.Assistant?
       case Tools(b) => BatchOk(b, s.aborted)
       case TurnEnding(reply, executions, last) =>
         && reply.Assistant? && AllExecuted(executions) && TurnComplete(reply, executions, s.aborted)
       case FollowPoll => !s.hasMore
       case _ => true
  }

  predicate FirstTurnFlag(s: State) {
    match s.stage
    case PromptStart(_) | PromptEnd(_) => s.firstTurn && s.hasMore
    case LoopHead | Idle | Starting | FirstTurn | FirstPoll => true
    case _ => !s.firstTurn
  }

  /** What the grammar must say of the trace at each stage. */
  function PhaseOf(s: State): Phase
    requires Control(s)
  {
    match s.stage
    case Idle => NotStarted
    case Starting => NotStarted
    case FirstTurn => BetweenTurns(false)
    case PromptStart(_) => NEW_TURN
    case PromptEnd(k) => NEW_TURN.(open := Some(s.prompts[k]))
    case FirstPoll => NEW_TURN
    case LoopHead => if s.firstTurn then NEW_TURN else BetweenTurns(true)
    case InjectStart(_) => NEW_TURN
    case InjectEnd(k) => NEW_TURN.(open := Some(s.pending[k]))
    case Request(partial) => NEW_TURN.(open := partial)
    case ReplyStart(_) => NEW_TURN
    case ReplyEnd(_) => NEW_TURN
    case ReplyDone(reply) => NEW_TURN.(reply := Some(reply))
    case Tools(b) =>
      InTurn(if b.open then Some(ToolResult(b.reply.calls[b.results].id, b.calls[b.results].outcome)) else None,
             Some(b.reply), Executions(b.calls), b.results)
    case TurnEnding(reply, executions, _) => InTurn(None, Some(reply), executions, |executions|)
    case NextTurn | ShouldStop | Poll | FollowPoll | Finishing => BetweenTurns(true)
    case Finished => Ended
  }

  /** The trace is the start of a well-formed run, and the stage agrees with it. While the reply is
      about to be delivered, its partial form may already have been announced. */
  predicate Grammar(s: State)
    requires Control(s)
  {
    var p := Follow(s.trace);
    if s.stage.Idle? then s.trace == [] || p.phase == Ended
    else
      && p.aborted == s.aborted
      && if s.stage.ReplyEnd? then p.phase.InTurn? && p.phase.open.Some? && p.phase.open.value.Assistant?
                                   && p.phase == NEW_TURN.(open := p.phase.open)
         else p.phase == PhaseOf(s)
  }

  predicate Sound(s: State) {
    Control(s) && FirstTurnFlag(s) && Grammar(s)
  }

  lemma EmitFollows(s: State, e: Event)
    ensures Follow(Emit(s, e).trace) == Next(Follow(s.trace), e)
  {
    FollowPush(s.trace, e);
  }

  lemma {:induction false} QueueHeads(q: Queue)
    requires AllUser(q.items)
    ensures AllUser(q.Head()) && AllUser(q.Rest().items) && q.Head() + q.Rest().items == q.items
  {
  }

  lemma PromptStartSound(s: State)
    requires Sound(s) && (s.stage.Starting? || s.stage.FirstTurn?)
    ensures Sound(Open(s))
  {
    hide Follow, AllUser;
    EmitFollows(s, if s.stage.Starting? then AgentStart else TurnStart);
  }

  lemma PromptsSound(s: State)
    requires Sound(s) && (s.stage.PromptStart? || s.stage.PromptEnd?)
    ensures Sound(Open(s))
  {
    hide Follow;
    if s.stage.k < |s.prompts| {
      var m := s.prompts[s.stage.k];
      EmitFollows(s, if s.stage.PromptStart? then MessageStart(m) else MessageEnd(m));
    }
  }

  lemma LoopHeadSound(s: State)
    requires Sound(s) && s.stage.LoopHead?
    ensures Sound(Inject(s))
  {
    hide Follow, AllUser;
    EmitFollows(s, TurnStart);
  }

  lemma PollsSound(s: State)
    requires Sound(s) && (s.stage.FirstPoll? || s.stage.Poll?)
    ensures Sound(Drain(s))
  {
    QueueHeads(s.steering);
    hide Follow, AllUser;
  }

  lemma FollowPollSound(s: State)
    requires Sound(s) && s.stage.FollowPoll?
    ensures Sound(Drain(s))
  {
    hide Follow, AllUser, PollSteering, Queue.Head, Queue.Rest, BatchOk, Executions, TurnComplete, AllExecuted;
    QueuesAreUser(s);
  }

  lemma QueuesAreUser(s: State)
    requires Sound(s)
    ensures AllUser(s.steering.Head()) && AllUser(s.steering.Rest().items)
    ensures AllUser(s.followUp.Head()) && AllUser(s.followUp.Rest().items)
  {
    QueueHeads(s.steering);
    QueueHeads(s.followUp);
  }

  lemma InjectStartSound(s: State)
    requires Sound(s) && s.stage.InjectStart? && s.stage.k < |s.pending|
    ensures Sound(Inject(s))
  {
    EmitFollows(s, MessageStart(s.pending[s.stage.k]));
    hide Follow, BatchOk, Executions, TurnComplete, AllExecuted;
  }

  lemma InjectedSound(s: State)
    requires Sound(s) && s.stage.InjectStart? && s.stage.k >= |s.pending|
    ensures Sound(Inject(s))
  {
    hide Follow, BatchOk, Executions, TurnComplete, AllExecuted;
  }

  lemma InjectEndSound(s: State)
    requires Sound(s) && s.stage.InjectEnd?
    ensures Sound(Inject(s))
  {
    hide Follow;
    EmitFollows(s, MessageEnd(s.pending[s.stage.k]));
  }

  lemma RepliesSound(s: State)
    requires Sound(s) && (s.stage.ReplyStart? || s.stage.ReplyEnd?)
    ensures Sound(Close(s))
  {
    hide Follow, AllUser;
    EmitFollows(s, if s.stage.ReplyStart? then MessageStart(s.stage.reply) else MessageEnd(s.stage.reply));
  }

  lemma TurnEndSound(s: State)
    requires Sound(s) && s.stage.TurnEnding?
    ensures Sound(Close(s))
  {
    hide Follow, AllUser;
    EmitFollows(s, TurnEnd(s.stage.reply, ResultsOf(s.stage.reply.calls, s.stage.executions)));
  }

  lemma FinishSound(s: State)
    requires Sound(s) && (s.stage.Finishing? || s.stage.Finished?)
    ensures Sound(Close(s))
  {
    hide Follow, AllUser;
    EmitFollows(s, AgentEnd(s.newMessages));
  }

  lemma AdvanceSound(s: State)
    requires Sound(s)
    ensures Sound(Advance(s))
  {
    hide Sound, Open, Inject, Drain;
    match s.stage {
      case Starting | FirstTurn => PromptStartSound(s);
      case PromptStart(_) | PromptEnd(_) => PromptsSound(s);
      case LoopHead => LoopHeadSound(s);
      case FirstPoll | Poll => PollsSound(s);
      case FollowPoll => FollowPollSound(s);
      case InjectStart(k) => if k < |s.pending| { InjectStartSound(s); } else { InjectedSound(s); }
      case InjectEnd(_) => InjectEndSound(s);
      case ReplyStart(_) | ReplyEnd(_) => RepliesSound(s);
      case TurnEnding(_, _, _) => TurnEndSound(s);
      case Finishing | Finished => FinishSound(s);
      case _ => assert Close(s) == s;
    }
  }

  lemma StreamStartSound(s: State, m: Message)
    requires Sound(s) && s.stage.Request?
    ensures Sound(Stream(s, StreamStart(m)))
  {
    hide Follow, AllUser;
    EmitFollows(s, MessageStart(m));
  }

  lemma StreamUpdateSound(s: State, m: Message)
    requires Sound(s) && s.stage.Request?
    ensures Sound(Stream(s, StreamUpdate(m)))
  {
    hide Follow, AllUser;
    EmitFollows(s, MessageUpdate(m));
  }

  lemma StreamDoneSound(s: State, m: Message)
    requires Sound(s) && s.stage.Request?
    ensures Sound(Stream(s, StreamDone(m)))
  {
    hide Follow, AllUser;
  }

  lemma StreamSound(s: State, i: Input)
    requires Sound(s) && s.stage.Request?
    ensures Sound(Stream(s, i))
  {
    hide Sound;
    match i {
      case StreamStart(m) => StreamStartSound(s, m);
      case StreamUpdate(m) => StreamUpdateSound(s, m);
      case StreamDone(m) => StreamDoneSound(s, m);
      case _ =>
    }
  }

  lemma NoCallSound(s: State, parallel: bool)
    requires Sound(s) && s.stage.ReplyDone?
    requires s.stage.reply.stop == Failed || s.stage.reply.stop == Aborted || s.stage.reply.calls == []
    ensures Sound(Dispatch(s, s.stage.reply, parallel))
  {
    hide Follow, AllUser;
  }

  lemma BatchOpensSound(s: State, parallel: bool)
    requires Sound(s) && s.stage.ReplyDone?
    requires s.stage.reply.stop != Failed && s.stage.reply.stop != Aborted && s.stage.reply.calls != []
    ensures Sound(Dispatch(s, s.stage.reply, parallel))
  {
    hide Follow, AllUser;
    assert Executions([]) == [];
  }

  lemma DispatchSound(s: State, parallel: bool)
    requires Sound(s) && s.stage.ReplyDone?
    ensures Sound(Dispatch(s, s.stage.reply, parallel))
  {
    assert s.stage.reply.Assistant?;
    hide Sound, Dispatch;
    if s.stage.reply.stop == Failed || s.stage.reply.stop == Aborted || s.stage.reply.calls == [] {
      NoCallSound(s, parallel);
    } else {
      BatchOpensSound(s, parallel);
    }
  }

  lemma ExecutionsSet(calls: seq<Call>, k: nat, c: Call)
    requires k < |calls|
    ensures Executions(calls[k := c]) == Executions(calls)[k := if c.Reported? then Executed(c.outcome) else Executing]
    ensures c.Reported? == calls[k].Reported? && (c.Reported? ==> c == calls[k]) ==>
              Executions(calls[k := c]) == Executions(calls)
  {
  }

  lemma ExecutionsPush(calls: seq<Call>, c: Call)
    requires !c.Reported?
    ensures Executions(calls + [c]) == Executions(calls) + [Executing]
  {
  }

  lemma ExecutionsLaunched(calls: seq<Call>)
    ensures Executions(Launched(calls)) == Executions(calls)
  {
  }

  /** A step that only changes how far an unreported call is. */
  lemma SetCallSound(s: State, b: Batch, k: nat, c: Call)
    requires Sound(s) && s.stage == Tools(b) && k < |b.calls| && !c.Reported?
    requires b.calls[k].Preparing? || b.calls[k].Prepared? || b.calls[k].Busy?
    ensures Sound(SetCall(s, b, k, c))
  {
    ExecutionsSet(b.calls, k, c);
    hide Follow, AllUser, Executions;
  }

  lemma ReportControl(s: State, b: Batch, k: nat)
    requires Control(s) && s.stage == Tools(b) && k < |b.calls| && b.calls[k].Settled?
    ensures Control(ToolInput(s, b, Report(k)))
  {
    hide AllUser;
  }

  lemma EndsCall(p: Phase, k: nat, id: string, outcome: Outcome, aborted: bool)
    requires Running(p, k, id) && (p.reply.value.stop == Length ==> outcome == REFUSED_BY_LENGTH)
    ensures NextPhase(p, ToolEnd(k, id, outcome), aborted) == p.(calls := p.calls[k := Executed(outcome)])
  {
  }

  lemma SettledIsRunning(s: State, b: Batch, k: nat)
    requires Sound(s) && s.stage == Tools(b) && k < |b.calls| && b.calls[k].Settled?
    ensures Control(s) && b.reply.Assistant? && |b.calls| <= |b.reply.calls|
    ensures PhaseOf(s).InTurn? && PhaseOf(s).reply == Some(b.reply) && PhaseOf(s).calls == Executions(b.calls)
    ensures PhaseOf(s).results == b.results && Running(PhaseOf(s), k, b.reply.calls[k].id)
    ensures b.reply.stop == Length ==> b.calls[k].outcome == REFUSED_BY_LENGTH
    ensures Follow(s.trace) == Progress(PhaseOf(s), s.aborted)
  {
    hide Follow, AllUser;
  }

  lemma ReportGrammar(s: State, b: Batch, k: nat)
    requires Sound(s) && s.stage == Tools(b) && k < |b.calls| && b.calls[k].Settled?
    ensures var calls := Executions(b.calls)[k := Executed(b.calls[k].outcome)];
            Follow(ToolInput(s, b, Report(k)).trace)
            == Progress(InTurn(PhaseOf(s).open, Some(b.reply), calls, b.results), s.aborted)
  {
    hide Sound, Control, Grammar, FirstTurnFlag, Follow, PhaseOf, Running, Executions, NextPhase, BatchStep;
    SettledIsRunning(s, b, k);
    EmitFollows(s, ToolEnd(k, b.reply.calls[k].id, b.calls[k].outcome));
    EndsCall(PhaseOf(s), k, b.reply.calls[k].id, b.calls[k].outcome, s.aborted);
  }

  lemma ReportSound(s: State, b: Batch, k: nat)
    requires Sound(s) && s.stage == Tools(b)
    ensures Sound(ToolInput(s, b, Report(k)))
  {
    if k < |b.calls| && b.calls[k].Settled? {
      ReportControl(s, b, k);
      ReportGrammar(s, b, k);
      ExecutionsSet(b.calls, k, Reported(b.calls[k].outcome));
      hide Follow, AllUser, Executions, BatchOk;
    }
  }

  lemma ProgressedSound(s: State, b: Batch, k: nat)
    requires Sound(s) && s.stage == Tools(b)
    ensures Sound(ToolInput(s, b, Progressed(k)))
  {
    if k < |b.calls| && b.calls[k].Busy? {
      EmitFollows(s, ToolUpdate(k, b.reply.calls[k].id));
      hide Follow, AllUser;
    }
  }

  lemma ResultControl(s: State, b: Batch)
    requires Control(s) && s.stage == Tools(b) && (b.open || ResultsDue(b))
    ensures Control(DeliverResult(s, b))
  {
    hide AllUser;
  }

  lemma ResultEndSound(s: State, b: Batch)
    requires Sound(s) && s.stage == Tools(b) && b.open
    ensures Sound(DeliverResult(s, b))
  {
    ResultControl(s, b);
    EmitFollows(s, MessageEnd(ResultMessage(b, b.results)));
    assert b.results < |b.calls| && b.calls[b.results].Reported?;
    hide Follow, Control, Executions, TurnComplete, AllExecuted;
  }

  lemma ResultStartSound(s: State, b: Batch)
    requires Sound(s) && s.stage == Tools(b) && !b.open && ResultsDue(b)
    ensures Sound(DeliverResult(s, b))
  {
    ResultControl(s, b);
    EmitFollows(s, MessageStart(ResultMessage(b, b.results)));
    assert |b.calls| <= |b.reply.calls|;
    hide Follow, Control, TurnComplete, AllExecuted;
  }

  lemma StartCallControl(s: State, b: Batch)
    requires Control(s) && s.stage == Tools(b) && !b.open && !b.launched && !NoFurtherCall(s, b) && !ResultsDue(b)
    ensures Control(StartCall(s, b))
  {
    hide AllUser;
  }

  lemma StartCallSound(s: State, b: Batch)
    requires Sound(s) && s.stage == Tools(b) && !b.open && !b.launched && !NoFurtherCall(s, b) && !ResultsDue(b)
    ensures Sound(StartCall(s, b))
  {
    hide Follow, AllUser, Executions, Reportable, Unrun, TurnComplete, AllExecuted, ResultsDue;
    StartCallControl(s, b);
    EmitFollows(s, ToolStart(|b.calls|, b.reply.calls[|b.calls|].id));
    ExecutionsPush(b.calls, if b.style == Truncated then Settled(REFUSED_BY_LENGTH) else Preparing);
  }

  lemma LaunchSound(s: State, b: Batch)
    requires Sound(s) && s.stage == Tools(b) && !b.open && b.style == Parallel && !b.launched && NoFurtherCall(s, b)
    ensures Sound(Launch(s, b))
  {
    ExecutionsLaunched(b.calls);
    hide Follow, AllUser, Executions;
  }

  lemma BatchEndSound(s: State, b: Batch)
    requires Sound(s) && s.stage == Tools(b) && !b.open && !ResultsDue(b)
    requires b.launched || (NoFurtherCall(s, b) && b.style != Parallel)
    ensures Sound(EndBatch(s, b))
  {
    hide Follow, AllUser;
  }

  lemma BatchSound(s: State, b: Batch)
    requires Sound(s) && s.stage == Tools(b)
    ensures Sound(BatchStep(s, b))
  {
    assert b.reply.Assistant?;
    hide Sound, DeliverResult, StartCall, Launch, EndBatch, ResultsDue, SetCall;
    if b.open {
      ResultEndSound(s, b);
    } else if ResultsDue(b) {
      ResultStartSound(s, b);
    } else if ExecutionDue(b) {
      SetCallSound(s, b, |b.calls| - 1, Busy);
    } else if !b.launched && !NoFurtherCall(s, b) {
      StartCallSound(s, b);
    } else if b.style == Parallel && !b.launched {
      LaunchSound(s, b);
    } else {
      BatchEndSound(s, b);
    }
  }

  lemma ToolsSound(s: State, b: Batch, i: Input)
    requires Sound(s) && s.stage == Tools(b)
    ensures b.reply.Assistant? && Sound(ToolInput(s, b, i))
  {
    hide Sound, BatchStep;
    RepliesCall(s, b);
    match i {
      case Go => BatchSound(s, b);
      case Refuse(_) | Accept | Settle(_, _) => DecidedSound(s, b, i);
      case Progressed(k) => ProgressedSound(s, b, k);
      case Report(k) => ReportSound(s, b, k);
      case _ =>
    }
  }

  lemma RepliesCall(s: State, b: Batch)
    requires Sound(s) && s.stage == Tools(b)
    ensures b.reply.Assistant?
  {
  }

  lemma DecidedSound(s: State, b: Batch, i: Input)
    requires Sound(s) && s.stage == Tools(b) && b.reply.Assistant? && (i.Refuse? || i.Accept? || i.Settle?)
    ensures Sound(ToolInput(s, b, i))
  {
    hide Sound, BatchStep, SetCall;
    var n := |b.calls|;
    match i {
      case Refuse(outcome) =>
        if n > 0 && b.calls[n - 1].Preparing? { SetCallSound(s, b, n - 1, Settled(outcome.(terminate := false))); }
      case Accept =>
        if n > 0 && b.calls[n - 1].Preparing? {
          SetCallSound(s, b, n - 1, if s.aborted then Settled(REFUSED_BY_ABORT) else Prepared);
        }
      case Settle(k, outcome) =>
        if k < n && b.calls[k].Busy? { SetCallSound(s, b, k, Settled(outcome)); }
    }
  }

  /** Queueing messages does not disturb the run. */
  lemma QueuedSound(s: State, steering: Queue, followUp: Queue, steered: seq<Message>, followed: seq<Message>)
    requires Sound(s) && AllUser(steering.items) && AllUser(followUp.items)
    ensures Sound(s.(steering := steering, followUp := followUp, steered := steered, followed := followed))
  {
    hide Follow, AllUser, BatchOk;
  }

  lemma UserPush(messages: seq<Message>, m: Message)
    requires AllUser(messages) && m.User?
    ensures AllUser(messages + [m])
  {
  }

  lemma AbortControl(s: State)
    requires Control(s) && !s.stage.Idle?
    ensures Control(Step(s, Abort)) && PhaseOf(Step(s, Abort)) == PhaseOf(s)
  {
    hide AllUser, Executions;
  }

  lemma AbortSound(s: State)
    requires Sound(s) && !s.stage.Idle?
    ensures Sound(Step(s, Abort))
  {
    AbortControl(s);
    EmitFollows(s, AbortRequested);
    hide Follow, Control, PhaseOf;
  }

  lemma ReplaceSound(s: State, context: Option<seq<Message>>)
    requires Sound(s)
    ensures Sound(Step(s, Replace(context)))
  {
    hide Follow, AllUser, BatchOk, Executions, TurnComplete, AllExecuted, NextPhase, React, Continue, Begin, Dispatch,
         Emit;
  }

  lemma AnswerSound(s: State, stop: bool)
    requires Sound(s)
    ensures Sound(Step(s, Answer(stop)))
  {
    hide Follow, AllUser, BatchOk, Executions, TurnComplete, AllExecuted, NextPhase, React, Continue, Begin, Dispatch,
         Emit;
  }

  lemma HooksSound(s: State, i: Input)
    requires Sound(s) && (i.Replace? || i.Answer?)
    ensures Sound(Step(s, i))
  {
    hide Sound, Step;
    if i.Replace? {
      ReplaceSound(s, i.context);
    } else {
      AnswerSound(s, i.stop);
    }
  }

  lemma OutsideSound(s: State, i: Input)
    requires Sound(s)
    requires i.Steer? || i.FollowUp? || i.SetModes? || i.Abort?
    ensures Sound(Step(s, i))
  {
    assert AllUser(s.steering.items) && AllUser(s.followUp.items);
    hide Sound;
    match i {
      case Steer(text) =>
        UserPush(s.steering.items, User(text, Steered));
        QueuedSound(s, s.steering.Add(User(text, Steered)), s.followUp, s.steered + [User(text, Steered)], s.followed);
      case FollowUp(text) =>
        UserPush(s.followUp.items, User(text, FollowedUp));
        QueuedSound(s, s.steering, s.followUp.Add(User(text, FollowedUp)), s.steered,
                    s.followed + [User(text, FollowedUp)]);
      case SetModes(m, n) =>
        QueuedSound(s, s.steering.(mode := m), s.followUp.(mode := n), s.steered, s.followed);
      case Abort =>
        if !s.stage.Idle? { AbortSound(s); }
    }
  }

  lemma BeginSound(s: State, prompts: seq<Message>, skipPoll: bool)
    requires Sound(s) && AllUser(prompts)
    ensures Sound(Begin(s, prompts, skipPoll))
  {
  }

  lemma StartsSound(s: State, i: Input)
    requires Sound(s) && s.stage.Idle? && (i.StartPrompt? || i.StartContinue?)
    ensures Sound(Step(s, i))
  {
    QueueHeads(s.steering);
    QueueHeads(s.followUp);
    var drained, followed := s.(steering := s.steering.Rest()), s.(followUp := s.followUp.Rest());
    assert Sound(drained) && Sound(followed);
    assert AllUser([]);
    hide Sound;
    if i.StartPrompt? {
      BeginSound(s, Prompts(i.texts), false);
    } else {
      BeginSound(s, [], false);
      BeginSound(drained, s.steering.Head(), true);
      BeginSound(followed, s.followUp.Head(), false);
    }
  }

  lemma ReactSound(s: State, i: Input)
    requires Sound(s)
    ensures Sound(React(s, i))
  {
    assert s.stage.Tools? ==> s.stage.batch.reply.Assistant?;
    hide Sound, Stream, ToolInput, Advance;
    if s.stage.Request? {
      StreamSound(s, i);
    } else if s.stage.Tools? {
      ToolsSound(s, s.stage.batch, i);
    } else {
      AdvanceSound(s);
    }
  }

  lemma StepSound(s: State, i: Input)
    requires Sound(s)
    ensures Sound(Step(s, i))
  {
    assert s.stage.ReplyDone? ==> s.stage.reply.Assistant?;
    hide Sound, React, Dispatch, Begin;
    match i {
      case Steer(_) | FollowUp(_) | SetModes(_, _) | Abort => OutsideSound(s, i);
      case Replace(_) | Answer(_) => HooksSound(s, i);
      case StartPrompt(_) | StartContinue =>
        if s.stage.Idle? { StartsSound(s, i); }
      case Execute(parallel) =>
        if s.stage.ReplyDone? { DispatchSound(s, parallel); }
      case _ => ReactSound(s, i);
    }
  }

  /** Every run of the agent, under every behaviour of the model, the tools and the user: the trace is
      at every moment the start of a well-formed run, and it is a complete one when the run is over. */
  lemma {:induction false} EveryRunIsWellFormed(messages: seq<Message>, m: Mode, n: Mode, inputs: seq<Input>)
    ensures var s := AgentLoop.Run(Start(messages, m, n), inputs);
            && Sound(s) && Follow(s.trace).phase != Malformed
            && (s.stage.Finished? || (s.stage.Idle? && s.trace != []) ==> Follow(s.trace).phase == Ended)
  {
    if inputs != [] {
      EveryRunIsWellFormed(messages, m, n, inputs[..|inputs| - 1]);
      StepSound(AgentLoop.Run(Start(messages, m, n), inputs[..|inputs| - 1]), inputs[|inputs| - 1]);
    }
  }
}
