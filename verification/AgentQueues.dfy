/** The steering and follow-up queues: nothing queued is lost, repeated or reordered, whoever queues when. */
module AgentQueues {
  import opened AgentEvents
  import opened AgentLoop
  import opened AgentSafety
  import opened AgentTranscript

  /** The messages that came in one way. */
  function Of(messages: seq<Message>, source: Source): seq<Message> {
    if messages == [] then []
    else
      var m := messages[|messages| - 1];
      if m.User? && m.source == source then Of(messages[..|messages| - 1], source) + [m]
      else Of(messages[..|messages| - 1], source)
  }

  lemma OfPush(messages: seq<Message>, m: Message, source: Source)
    ensures Of(messages + [m], source)
         == if m.User? && m.source == source then Of(messages, source) + [m] else Of(messages, source)
  {
    assert (messages + [m])[..|messages|] == messages;
  }

  lemma OfNone(source: Source)
    ensures Of([], source) == []
  {
  }

  lemma {:induction false} OfAppend(a: seq<Message>, b: seq<Message>, source: Source)
    ensures Of(a + b, source) == Of(a, source) + Of(b, source)
  {
    hide Of;
    if b == [] {
      OfNone(source);
      assert a + b == a && Of(a, source) + [] == Of(a, source);
    } else {
      var front, m := b[..|b| - 1], b[|b| - 1];
      assert a + b == (a + front) + [m] && b == front + [m];
      OfAppend(a, front, source);
      OfPush(a + front, m, source);
      OfPush(front, m, source);
      assert Of(a, source) + (Of(front, source) + [m]) == Of(a, source) + Of(front, source) + [m];
    }
  }

  predicate OnlyFrom(messages: seq<Message>, source: Source) {
    forall k :: 0 <= k < |messages| ==> messages[k].User? && messages[k].source == source
  }

  lemma {:induction false} OfOnly(messages: seq<Message>, a: Source, b: Source)
    requires OnlyFrom(messages, a)
    ensures Of(messages, b) == if a == b then messages else []
  {
    if messages != [] {
      OfOnly(messages[..|messages| - 1], a, b);
      assert messages == messages[..|messages| - 1] + [messages[|messages| - 1]];
    }
  }

  /** Messages taken from a queue or given as prompts, and not delivered yet. */
  function Undelivered(s: State): seq<Message> {
    match s.stage
    case Starting | FirstTurn => s.prompts
    case PromptStart(k) => From(s.prompts, k)
    case PromptEnd(k) => From(s.prompts, k)
    case LoopHead => s.pending
    case InjectStart(k) => From(s.pending, k)
    case InjectEnd(k) => From(s.pending, k)
    case _ => []
  }

  /** What came in one way is, in order: what is in the conversation or on its way into it, then what is
      still queued. `before` is the conversation at the very start, `sent` all that was queued since. */
  predicate Kept(story: seq<Message>, queued: seq<Message>, sent: seq<Message>, before: seq<Message>, source: Source) {
    && Of(story, source) + queued == Of(before, source) + sent
    && OnlyFrom(queued, source)
  }

  function Story(s: State): seq<Message> {
    s.agent.messages + Undelivered(s)
  }

  predicate Conserved(s: State, before: seq<Message>) {
    && Kept(Story(s), s.steering.items, s.steered, before, Steered)
    && Kept(Story(s), s.followUp.items, s.followed, before, FollowedUp)
  }

  lemma Untouched(s: State, t: State, before: seq<Message>)
    requires Conserved(s, before) && Story(t) == Story(s)
    requires t.steering.items == s.steering.items && t.followUp.items == s.followUp.items
    requires t.steered == s.steered && t.followed == s.followed
    ensures Conserved(t, before)
  {
    hide Story, Kept;
  }

  /** Stages at which messages wait to be delivered. */
  predicate Carrying(stage: Stage) {
    || stage.Starting? || stage.FirstTurn? || stage.PromptStart? || stage.PromptEnd? || stage.LoopHead?
    || stage.InjectStart? || stage.InjectEnd?
  }

  lemma Aside(s: State, t: State, before: seq<Message>)
    requires Conserved(s, before) && !Carrying(s.stage) && !Carrying(t.stage) && t.agent.messages == s.agent.messages
    requires t.steering.items == s.steering.items && t.followUp.items == s.followUp.items
    requires t.steered == s.steered && t.followed == s.followed
    ensures Conserved(t, before)
  {
    hide Kept;
  }

  lemma Gained(s: State, t: State, m: Message, before: seq<Message>)
    requires Conserved(s, before) && Story(t) == Story(s) + [m] && !m.User?
    requires t.steering.items == s.steering.items && t.followUp.items == s.followUp.items
    requires t.steered == s.steered && t.followed == s.followed
    ensures Conserved(t, before)
  {
    OfPush(Story(s), m, Steered);
    OfPush(Story(s), m, FollowedUp);
    hide Story, Of, OnlyFrom;
  }

  lemma Drained(q: Queue, source: Source, story: seq<Message>, sent: seq<Message>, before: seq<Message>)
    requires Kept(story, q.items, sent, before, source)
    ensures Kept(story + q.Head(), q.Rest().items, sent, before, source)
    ensures OnlyFrom(q.Head(), source) && (q.mode == OneAtATime ==> |q.Head()| <= 1)
  {
    var head, rest := q.Head(), q.Rest().items;
    assert head + rest == q.items;
    OfAppend(story, head, source);
    OfOnly(head, source, source);
    assert Of(story, source) + head + rest == Of(story, source) + (head + rest);
  }

  lemma Other(story: seq<Message>, more: seq<Message>, a: Source, b: Source, queued: seq<Message>,
              sent: seq<Message>, before: seq<Message>)
    requires Kept(story, queued, sent, before, b) && OnlyFrom(more, a) && a != b
    ensures Kept(story + more, queued, sent, before, b)
  {
    OfAppend(story, more, b);
    OfOnly(more, a, b);
    assert Of(story, b) + [] == Of(story, b);
  }

  lemma SteeringDrained(s: State, t: State, before: seq<Message>)
    requires Conserved(s, before) && Story(t) == Story(s) + s.steering.Head()
    requires t.steering == s.steering.Rest() && t.followUp == s.followUp && t.steered == s.steered
             && t.followed == s.followed
    ensures Conserved(t, before)
  {
    hide Story, Kept, Queue.Head, Queue.Rest, OnlyFrom;
    Drained(s.steering, Steered, Story(s), s.steered, before);
    Other(Story(s), s.steering.Head(), Steered, FollowedUp, s.followUp.items, s.followed, before);
  }

  lemma FollowUpDrained(s: State, t: State, before: seq<Message>)
    requires Conserved(s, before) && Story(t) == Story(s) + s.followUp.Head()
    requires t.followUp == s.followUp.Rest() && t.steering == s.steering && t.steered == s.steered
             && t.followed == s.followed
    ensures Conserved(t, before)
  {
    hide Story, Kept, Queue.Head, Queue.Rest, OnlyFrom;
    Drained(s.followUp, FollowedUp, Story(s), s.followed, before);
    Other(Story(s), s.followUp.Head(), FollowedUp, Steered, s.steering.items, s.steered, before);
  }

  lemma Queued(story: seq<Message>, queued: seq<Message>, sent: seq<Message>, before: seq<Message>, source: Source,
               text: string)
    requires Kept(story, queued, sent, before, source)
    ensures Kept(story, queued + [User(text, source)], sent + [User(text, source)], before, source)
  {
    var m := User(text, source);
    assert Of(story, source) + (queued + [m]) == Of(story, source) + queued + [m];
    assert Of(before, source) + (sent + [m]) == Of(before, source) + sent + [m];
  }

  lemma EmitKeeps(s: State, e: Event)
    ensures var t := Emit(s, e);
            && t.steering == s.steering && t.followUp == s.followUp
            && t.steered == s.steered && t.followed == s.followed
            && t.stage == s.stage && t.prompts == s.prompts && t.pending == s.pending
            && t.agent.messages == if e.MessageEnd? then s.agent.messages + [e.message] else s.agent.messages
  {
  }

  lemma Deliver(messages: seq<Message>, p: seq<Message>, k: nat)
    requires k < |p|
    ensures messages + [p[k]] + From(p, k + 1) == messages + From(p, k)
  {
  }

  lemma Nothing(messages: seq<Message>)
    ensures messages + [] == messages
  {
  }

  lemma OpenConserves(s: State, before: seq<Message>)
    requires Conserved(s, before) && (s.stage.Starting? || s.stage.FirstTurn?)
    ensures Conserved(Open(s), before)
  {
    hide Conserved, Emit, From;
    Ends(s.prompts);
    if s.stage.Starting? {
      EmitKeeps(s, AgentStart);
      Untouched(s, Open(s), before);
    } else {
      EmitKeeps(s, TurnStart);
      Untouched(s, Open(s), before);
    }
  }

  lemma PromptsConserve(s: State, before: seq<Message>)
    requires Conserved(s, before) && Control(s) && (s.stage.PromptStart? || s.stage.PromptEnd?)
    ensures Conserved(Open(s), before)
  {
    hide Conserved, Control, Emit, From;
    PromptBounds(s);
    Ends(s.prompts);
    var k := s.stage.k;
    if s.stage.PromptEnd? {
      EmitKeeps(s, MessageEnd(s.prompts[k]));
      Deliver(s.agent.messages, s.prompts, k);
      Untouched(s, Open(s), before);
    } else if k < |s.prompts| {
      EmitKeeps(s, MessageStart(s.prompts[k]));
      Untouched(s, Open(s), before);
    } else {
      Untouched(s, Open(s), before);
    }
  }

  lemma FollowPollConserves(s: State, before: seq<Message>)
    requires Conserved(s, before) && s.stage.FollowPoll?
    ensures Conserved(Drain(s), before)
  {
    hide Conserved, Queue.Head, Queue.Rest;
    Nothing(s.agent.messages);
    if s.followUp.Head() != [] {
      FollowUpDrained(s, Drain(s), before);
    } else {
      Aside(s, Drain(s), before);
    }
  }

  lemma DrainConserves(s: State, before: seq<Message>)
    requires Conserved(s, before) && (s.stage.FirstPoll? || s.stage.Poll? || s.stage.FollowPoll?)
    ensures Conserved(Drain(s), before)
  {
    hide Conserved, Queue.Head, Queue.Rest;
    Nothing(s.agent.messages);
    if s.stage.FollowPoll? {
      FollowPollConserves(s, before);
    } else if s.stage.FirstPoll? && s.skipPoll {
      Untouched(s, Drain(s), before);
    } else {
      assert Drain(s) == PollSteering(s);
      SteeringDrained(s, PollSteering(s), before);
    }
  }

  lemma InjectBounds(s: State)
    requires Control(s)
    ensures s.stage.InjectStart? ==> s.stage.k <= |s.pending|
    ensures s.stage.InjectEnd? ==> s.stage.k < |s.pending|
  {
  }

  lemma InjectEndConserves(s: State, before: seq<Message>)
    requires Conserved(s, before) && s.stage.InjectEnd? && s.stage.k < |s.pending|
    ensures Conserved(Inject(s), before)
  {
    hide Conserved, Emit, From;
    Ends(s.pending);
    EmitKeeps(s, MessageEnd(s.pending[s.stage.k]));
    Deliver(s.agent.messages, s.pending, s.stage.k);
    Untouched(s, Inject(s), before);
  }

  lemma InjectStartConserves(s: State, before: seq<Message>)
    requires Conserved(s, before) && s.stage.InjectStart? && s.stage.k <= |s.pending|
    ensures Conserved(Inject(s), before)
  {
    hide Conserved, Emit, From;
    Ends(s.pending);
    if s.stage.k < |s.pending| {
      EmitKeeps(s, MessageStart(s.pending[s.stage.k]));
      Untouched(s, Inject(s), before);
    } else {
      Untouched(s, Inject(s), before);
    }
  }

  lemma InjectConserves(s: State, before: seq<Message>)
    requires Conserved(s, before) && Control(s) && (s.stage.LoopHead? || s.stage.InjectStart? || s.stage.InjectEnd?)
    ensures Conserved(Inject(s), before)
  {
    hide Conserved, Control, Inject;
    InjectBounds(s);
    if s.stage.InjectEnd? {
      InjectEndConserves(s, before);
    } else if s.stage.InjectStart? {
      InjectStartConserves(s, before);
    } else {
      LoopHeadConserves(s, before);
    }
  }

  lemma LoopHeadConserves(s: State, before: seq<Message>)
    requires Conserved(s, before) && s.stage.LoopHead?
    ensures Conserved(Inject(s), before)
  {
    hide Conserved, Emit, From;
    Ends(s.pending);
    if s.hasMore || s.pending != [] {
      if s.firstTurn {
        Untouched(s, Inject(s), before);
      } else {
        EmitKeeps(s, TurnStart);
        Untouched(s, Inject(s), before);
      }
    } else {
      Untouched(s, Inject(s), before);
    }
  }

  lemma ReplyBounds(s: State)
    requires Control(s)
    ensures s.stage.ReplyEnd? ==> s.stage.reply.Assistant?
  {
  }

  lemma CloseConserves(s: State, before: seq<Message>)
    requires Conserved(s, before) && Control(s)
    requires s.stage.ReplyStart? || s.stage.ReplyEnd? || s.stage.TurnEnding? || s.stage.Finishing? || s.stage.Finished?
    ensures Conserved(Close(s), before)
  {
    hide Conserved, Control, Emit, From, AllExecuted, ResultsOf;
    Nothing(s.agent.messages);
    match s.stage {
      case ReplyStart(reply) =>
        EmitKeeps(s, MessageStart(reply));
        Aside(s, Close(s), before);
      case ReplyEnd(reply) =>
        ReplyBounds(s);
        EmitKeeps(s, MessageEnd(reply));
        Nothing(s.agent.messages + [reply]);
        Gained(s, Close(s), reply, before);
      case TurnEnding(reply, executions, _) =>
        TurnEndBounds(s);
        EmitKeeps(s, TurnEnd(reply, ResultsOf(reply.calls, executions)));
        Aside(s, Close(s), before);
      case Finishing =>
        EmitKeeps(s, AgentEnd(s.newMessages));
        Aside(s, Close(s), before);
      case Finished =>
        Aside(s, Close(s), before);
    }
  }

  lemma AdvanceConserves(s: State, before: seq<Message>)
    requires Conserved(s, before) && Control(s)
    ensures Conserved(Advance(s), before)
  {
    hide Conserved, Control, Open, Inject, Drain;
    match s.stage {
      case Starting | FirstTurn => OpenConserves(s, before);
      case PromptStart(_) | PromptEnd(_) => PromptsConserve(s, before);
      case FirstPoll | Poll | FollowPoll => DrainConserves(s, before);
      case LoopHead | InjectStart(_) | InjectEnd(_) => InjectConserves(s, before);
      case ReplyStart(_) | ReplyEnd(_) | TurnEnding(_, _, _) | Finishing | Finished =>
        hide Close;
        CloseConserves(s, before);
      case _ => assert Close(s) == s;
    }
  }

  lemma StreamStartConserves(s: State, m: Message, before: seq<Message>)
    requires Conserved(s, before) && s.stage.Request?
    ensures Conserved(Stream(s, StreamStart(m)), before)
  {
    hide Conserved, Emit;
    if m.Assistant? && s.stage.partial.None? {
      EmitKeeps(s, MessageStart(m));
      Aside(s, Stream(s, StreamStart(m)), before);
    }
  }

  lemma StreamUpdateConserves(s: State, m: Message, before: seq<Message>)
    requires Conserved(s, before) && s.stage.Request?
    ensures Conserved(Stream(s, StreamUpdate(m)), before)
  {
    hide Conserved, Emit;
    if m.Assistant? && s.stage.partial.Some? && s.context != [] {
      EmitKeeps(s, MessageUpdate(m));
      Aside(s, Stream(s, StreamUpdate(m)), before);
    }
  }

  lemma StreamDoneConserves(s: State, m: Message, before: seq<Message>)
    requires Conserved(s, before) && s.stage.Request?
    ensures Conserved(Stream(s, StreamDone(m)), before)
  {
    hide Conserved;
    if m.Assistant? {
      if s.stage.partial.Some? && s.context != [] {
        Aside(s, Stream(s, StreamDone(m)), before);
      } else {
        Aside(s, Stream(s, StreamDone(m)), before);
      }
    }
  }

  lemma StreamConserves(s: State, i: Input, before: seq<Message>)
    requires Conserved(s, before) && s.stage.Request?
    ensures Conserved(Stream(s, i), before)
  {
    hide Conserved, Emit;
    match i {
      case StreamStart(m) => StreamStartConserves(s, m, before);
      case StreamUpdate(m) => StreamUpdateConserves(s, m, before);
      case StreamDone(m) => StreamDoneConserves(s, m, before);
      case _ =>
    }
  }

  lemma ResultConserves(s: State, b: Batch, before: seq<Message>)
    requires Conserved(s, before) && s.stage == Tools(b) && b.reply.Assistant?
    ensures Conserved(DeliverResult(s, b), before)
  {
    hide Conserved, Emit;
    if b.results < |b.calls| && b.calls[b.results].Reported? && b.results < |b.reply.calls| {
      var m := ResultMessage(b, b.results);
      Nothing(s.agent.messages);
      if b.open {
        EmitKeeps(s, MessageEnd(m));
        Nothing(s.agent.messages + [m]);
        Gained(s, DeliverResult(s, b), m, before);
      } else {
        EmitKeeps(s, MessageStart(m));
        Aside(s, DeliverResult(s, b), before);
      }
    }
  }

  lemma StartCallConserves(s: State, b: Batch, before: seq<Message>)
    requires Conserved(s, before) && s.stage == Tools(b) && b.reply.Assistant? && |b.calls| < |b.reply.calls|
    ensures Conserved(StartCall(s, b), before)
  {
    hide Conserved, Emit;
    EmitKeeps(s, ToolStart(|b.calls|, b.reply.calls[|b.calls|].id));
    Aside(s, StartCall(s, b), before);
  }

  lemma SetCallConserves(s: State, b: Batch, k: nat, c: Call, before: seq<Message>)
    requires Conserved(s, before) && s.stage == Tools(b) && k < |b.calls|
    ensures Conserved(SetCall(s, b, k, c), before)
  {
    hide Conserved;
    Aside(s, SetCall(s, b, k, c), before);
  }

  lemma BatchConserves(s: State, b: Batch, before: seq<Message>)
    requires Conserved(s, before) && s.stage == Tools(b) && b.reply.Assistant?
    ensures Conserved(BatchStep(s, b), before)
  {
    hide Conserved, Emit, DeliverResult, StartCall, SetCall, ResultsDue, Launched, Executions, ResultsOf, Reportable,
         AllTerminate;
    if b.open || ResultsDue(b) {
      ResultConserves(s, b, before);
    } else if ExecutionDue(b) {
      SetCallConserves(s, b, |b.calls| - 1, Busy, before);
    } else if !b.launched && !NoFurtherCall(s, b) {
      StartCallConserves(s, b, before);
    } else if b.style == Parallel && !b.launched {
      if Launch(s, b) != s { Aside(s, Launch(s, b), before); }
    } else {
      if EndBatch(s, b) != s { Aside(s, EndBatch(s, b), before); }
    }
  }

  lemma ReportConserves(s: State, b: Batch, k: nat, before: seq<Message>)
    requires Conserved(s, before) && s.stage == Tools(b) && b.reply.Assistant?
    requires k < |b.calls| <= |b.reply.calls| && b.calls[k].Settled?
    ensures Conserved(ToolInput(s, b, Report(k)), before)
  {
    hide Conserved, Emit;
    EmitKeeps(s, ToolEnd(k, b.reply.calls[k].id, b.calls[k].outcome));
    Aside(s, ToolInput(s, b, Report(k)), before);
  }

  lemma ProgressedConserves(s: State, b: Batch, k: nat, before: seq<Message>)
    requires Conserved(s, before) && s.stage == Tools(b) && b.reply.Assistant?
    requires k < |b.calls| <= |b.reply.calls| && b.calls[k].Busy?
    ensures Conserved(ToolInput(s, b, Progressed(k)), before)
  {
    hide Conserved, Emit;
    EmitKeeps(s, ToolUpdate(k, b.reply.calls[k].id));
    Aside(s, ToolInput(s, b, Progressed(k)), before);
  }

  lemma ToolConserves(s: State, b: Batch, i: Input, before: seq<Message>)
    requires Conserved(s, before) && s.stage == Tools(b) && b.reply.Assistant?
    ensures Conserved(ToolInput(s, b, i), before)
  {
    hide Conserved, Emit, BatchStep, SetCall;
    var n := |b.calls|;
    match i {
      case Go => BatchConserves(s, b, before);
      case Refuse(outcome) =>
        if n > 0 && b.calls[n - 1].Preparing? {
          SetCallConserves(s, b, n - 1, Settled(outcome.(terminate := false)), before);
        }
      case Accept =>
        if n > 0 && b.calls[n - 1].Preparing? {
          SetCallConserves(s, b, n - 1, if s.aborted then Settled(REFUSED_BY_ABORT) else Prepared, before);
        }
      case Progressed(k) => if k < n <= |b.reply.calls| && b.calls[k].Busy? { ProgressedConserves(s, b, k, before); }
      case Settle(k, outcome) => if k < n && b.calls[k].Busy? { SetCallConserves(s, b, k, Settled(outcome), before); }
      case Report(k) => if k < n <= |b.reply.calls| && b.calls[k].Settled? { ReportConserves(s, b, k, before); }
      case _ =>
    }
  }

  lemma ReactConserves(s: State, i: Input, before: seq<Message>)
    requires Conserved(s, before) && Control(s)
    ensures Conserved(React(s, i), before)
  {
    hide Conserved, Control, Stream, ToolInput, Advance;
    if s.stage.Request? {
      StreamConserves(s, i, before);
    } else if s.stage.Tools? && s.stage.batch.reply.Assistant? {
      ToolConserves(s, s.stage.batch, i, before);
    } else if i.Go? {
      AdvanceConserves(s, before);
    }
  }

  lemma PromptsGained(s: State, texts: seq<string>, before: seq<Message>)
    requires Conserved(s, before) && s.stage.Idle?
    ensures Conserved(Begin(s, Prompts(texts), false), before)
  {
    var prompts := Prompts(texts);
    assert OnlyFrom(prompts, Prompted);
    hide Kept, OnlyFrom, Prompts;
    Nothing(s.agent.messages);
    Other(Story(s), prompts, Prompted, Steered, s.steering.items, s.steered, before);
    Other(Story(s), prompts, Prompted, FollowedUp, s.followUp.items, s.followed, before);
  }

  lemma ContinueConserves(s: State, before: seq<Message>)
    requires Conserved(s, before) && s.stage.Idle?
    ensures Conserved(Continue(s), before)
  {
    hide Conserved, Queue.Head, Queue.Rest;
    Nothing(s.agent.messages);
    if s.agent.messages == [] {
    } else if !s.agent.messages[|s.agent.messages| - 1].Assistant? {
      Untouched(s, Continue(s), before);
    } else if s.steering.items != [] {
      SteeringDrained(s, Continue(s), before);
    } else if s.followUp.items != [] {
      FollowUpDrained(s, Continue(s), before);
    }
  }

  lemma QueueConserves(s: State, i: Input, before: seq<Message>)
    requires Conserved(s, before) && (i.Steer? || i.FollowUp? || i.SetModes?)
    ensures Conserved(Step(s, i), before)
  {
    hide Kept;
    match i {
      case Steer(text) =>
        Queued(Story(s), s.steering.items, s.steered, before, Steered, text);
        assert Story(Step(s, i)) == Story(s);
      case FollowUp(text) =>
        Queued(Story(s), s.followUp.items, s.followed, before, FollowedUp, text);
        assert Story(Step(s, i)) == Story(s);
      case SetModes(_, _) =>
        assert Story(Step(s, i)) == Story(s);
    }
  }

  lemma AbortConserves(s: State, before: seq<Message>)
    requires Conserved(s, before)
    ensures Conserved(Step(s, Abort), before)
  {
    hide Conserved, Emit, From;
    EmitKeeps(s, AbortRequested);
    Untouched(s, Step(s, Abort), before);
  }

  lemma HooksConserve(s: State, i: Input, before: seq<Message>)
    requires Conserved(s, before) && (i.Replace? || i.Answer?)
    ensures Conserved(Step(s, i), before)
  {
    hide Conserved, From;
    if i.Replace? {
      if s.stage.NextTurn? {
        if i.context.Some? {
          Aside(s, Step(s, i), before);
        } else {
          Aside(s, Step(s, i), before);
        }
      }
    } else if s.stage.ShouldStop? {
      if i.stop {
        Aside(s, Step(s, i), before);
      } else {
        Aside(s, Step(s, i), before);
      }
    }
  }

  lemma DispatchConserves(s: State, parallel: bool, before: seq<Message>)
    requires Conserved(s, before) && s.stage.ReplyDone? && s.stage.reply.Assistant?
    ensures Conserved(Dispatch(s, s.stage.reply, parallel), before)
  {
    hide Conserved, From;
    var reply := s.stage.reply;
    if reply.stop == Failed || reply.stop == Aborted {
      Aside(s, Dispatch(s, reply, parallel), before);
    } else if reply.calls == [] {
      Aside(s, Dispatch(s, reply, parallel), before);
    } else {
      Aside(s, Dispatch(s, reply, parallel), before);
    }
  }

  lemma StepConserves(s: State, i: Input, before: seq<Message>)
    requires Conserved(s, before) && Control(s)
    ensures Conserved(Step(s, i), before)
  {
    hide Conserved, Control, React, Dispatch, Begin, Continue, Emit;
    match i {
      case Steer(_) | FollowUp(_) | SetModes(_, _) => QueueConserves(s, i, before);
      case Abort => AbortConserves(s, before);
      case Replace(_) | Answer(_) => HooksConserve(s, i, before);
      case StartPrompt(texts) => if s.stage.Idle? { PromptsGained(s, texts, before); }
      case StartContinue => if s.stage.Idle? { ContinueConserves(s, before); }
      case Execute(parallel) =>
        if s.stage.ReplyDone? && s.stage.reply.Assistant? { DispatchConserves(s, parallel, before); }
      case _ => ReactConserves(s, i, before);
    }
  }

  lemma {:induction false} AllConserve(messages: seq<Message>, m: Mode, n: Mode, inputs: seq<Input>)
    ensures Conserved(AgentLoop.Run(Start(messages, m, n), inputs), messages)
  {
    if inputs == [] {
      Nothing(messages);
    } else {
      var front := inputs[..|inputs| - 1];
      AllConserve(messages, m, n, front);
      EveryRunIsWellFormed(messages, m, n, front);
      hide Conserved, Grammar, FirstTurnFlag, Step, Follow;
      StepConserves(AgentLoop.Run(Start(messages, m, n), front), inputs[|inputs| - 1], messages);
    }
  }

  /** Everything ever queued is, per queue and in order, what is in the conversation or about to be
      delivered, then what is still queued; and at each request to the model, and between runs, nothing
      taken from a queue is outside the conversation. */
  lemma QueuesAreConserved(messages: seq<Message>, m: Mode, n: Mode, inputs: seq<Input>)
    ensures var s := AgentLoop.Run(Start(messages, m, n), inputs);
            && Of(s.agent.messages + Undelivered(s), Steered) + s.steering.items == Of(messages, Steered) + s.steered
            && Of(s.agent.messages + Undelivered(s), FollowedUp) + s.followUp.items
                == Of(messages, FollowedUp) + s.followed
            && (s.stage.Request? || s.stage.Finished? || s.stage.Idle? ==> Undelivered(s) == [] && s.pending == [])
  {
    AllConserve(messages, m, n, inputs);
    EveryRunIsWellFormed(messages, m, n, inputs);
    hide Of, Grammar, Follow, FirstTurnFlag;
  }

  ghost predicate EmitsKeep(s: State) {
    forall e: Event ::
      Emit(s, e).steering == s.steering && Emit(s, e).followUp == s.followUp && Emit(s, e).stage == s.stage
  }

  predicate SameQueues(s: State, t: State) {
    t.steering == s.steering && t.followUp == s.followUp
  }

  lemma OpenQueues(s: State)
    requires EmitsKeep(s)
    ensures SameQueues(s, Open(s))
  {
    hide Emit;
  }

  lemma InjectQueues(s: State)
    requires EmitsKeep(s)
    ensures SameQueues(s, Inject(s))
  {
    hide Emit;
  }

  lemma CloseQueues(s: State)
    requires EmitsKeep(s)
    ensures SameQueues(s, Close(s))
  {
    hide Emit, AllExecuted, ResultsOf;
  }

  lemma StreamQueues(s: State, i: Input)
    requires EmitsKeep(s) && s.stage.Request?
    ensures SameQueues(s, Stream(s, i))
  {
    hide Emit;
  }

  lemma BatchQueues(s: State, b: Batch)
    requires EmitsKeep(s) && s.stage == Tools(b) && b.reply.Assistant?
    ensures SameQueues(s, BatchStep(s, b))
  {
    hide Emit, EmitsKeep, ResultsDue, Launched, Executions, ResultsOf, Reportable, AllTerminate, DeliverResult,
         StartCall;
    DeliverQueues(s, b);
    if |b.calls| < |b.reply.calls| { StartCallQueues(s, b); }
  }

  lemma DeliverQueues(s: State, b: Batch)
    requires EmitsKeep(s) && s.stage == Tools(b) && b.reply.Assistant?
    ensures SameQueues(s, DeliverResult(s, b))
  {
    hide Emit;
  }

  lemma StartCallQueues(s: State, b: Batch)
    requires EmitsKeep(s) && s.stage == Tools(b) && b.reply.Assistant? && |b.calls| < |b.reply.calls|
    ensures SameQueues(s, StartCall(s, b))
  {
    hide Emit;
  }

  lemma ToolQueues(s: State, b: Batch, i: Input)
    requires EmitsKeep(s) && s.stage == Tools(b) && b.reply.Assistant?
    ensures SameQueues(s, ToolInput(s, b, i))
  {
    hide Emit, BatchStep;
    if i.Go? {
      BatchQueues(s, b);
    } else {
      assert SameQueues(s, ToolInput(s, b, i));
    }
  }

  lemma ReactQueues(s: State, i: Input)
    ensures SameQueues(s, React(s, i))
         || ((s.stage.FirstPoll? || s.stage.Poll? || s.stage.FollowPoll?) && React(s, i) == Drain(s))
  {
    assert EmitsKeep(s);
    hide SameQueues, EmitsKeep, Emit, Open, Inject, Close, Drain, Stream, ToolInput;
    if s.stage.Request? {
      StreamQueues(s, i);
    } else if s.stage.Tools? && s.stage.batch.reply.Assistant? {
      ToolQueues(s, s.stage.batch, i);
    } else if i.Go? {
      OpenQueues(s);
      InjectQueues(s);
      CloseQueues(s);
    } else {
      assert SameQueues(s, s) by { Reflexive(s); }
    }
  }

  lemma Reflexive(s: State)
    ensures SameQueues(s, s)
  {
  }

  lemma OutsideQueues(s: State, i: Input)
    requires i.Abort? || i.Replace? || i.Answer? || i.StartPrompt? || i.Execute?
    ensures SameQueues(s, Step(s, i))
  {
    hide Emit, Prompts, React, Continue;
    EmitKeeps(s, AbortRequested);
  }

  /** What a poll may do to the queues. */
  predicate Waits(s: State, t: State) {
    && (|t.steering.items| < |s.steering.items| ==>
          && t.steering == s.steering.Rest()
          && (s.steering.mode == OneAtATime ==> |t.steering.items| + 1 == |s.steering.items|))
    && (|t.followUp.items| < |s.followUp.items| ==>
          && t.followUp == s.followUp.Rest()
          && (s.followUp.mode == OneAtATime ==> |t.followUp.items| + 1 == |s.followUp.items|)
          && (if s.stage.Idle? then s.steering.items == [] else s.stage == FollowPoll && !s.hasMore && s.pending == []))
  }

  lemma SameWait(s: State, t: State)
    requires SameQueues(s, t)
    ensures Waits(s, t)
  {
  }

  lemma PollBounds(s: State)
    requires Control(s) && s.stage.FollowPoll?
    ensures !s.hasMore && s.pending == []
  {
  }

  lemma DrainWaits(s: State)
    requires Control(s) && (s.stage.FirstPoll? || s.stage.Poll? || s.stage.FollowPoll?)
    ensures Waits(s, Drain(s))
  {
    hide Control;
    if s.stage.FollowPoll? {
      PollBounds(s);
      assert Waits(s, Drain(s));
    } else if s.stage.FirstPoll? {
      assert Waits(s, Drain(s));
    } else {
      assert Waits(s, Drain(s));
    }
  }

  lemma ContinueWaits(s: State)
    requires s.stage.Idle?
    ensures Waits(s, Continue(s))
  {
    if s.agent.messages == [] {
    } else if !s.agent.messages[|s.agent.messages| - 1].Assistant? {
      assert Waits(s, Continue(s));
    } else if s.steering.items != [] {
      assert Waits(s, Continue(s));
    } else if s.followUp.items != [] {
      assert Waits(s, Continue(s));
    }
  }

  /** A poll takes one message in one-at-a-time mode. Follow-ups are taken only when the run has no tool
      turn and no steering message to go on with, or between runs when no steering message is queued. */
  lemma FollowUpsWait(s: State, i: Input)
    requires Sound(s)
    ensures Waits(s, Step(s, i))
  {
    hide Grammar, FirstTurnFlag, Control, React, Continue, Drain, SameQueues, Waits, Emit;
    match i {
      case Steer(_) | FollowUp(_) | SetModes(_, _) => LongerWaits(s, i);
      case StartContinue => if s.stage.Idle? { ContinueWaits(s); } else { Reflexive(s); SameWait(s, s); }
      case Abort | Replace(_) | Answer(_) | StartPrompt(_) | Execute(_) =>
        OutsideQueues(s, i);
        SameWait(s, Step(s, i));
      case _ =>
        ReactQueues(s, i);
        if SameQueues(s, React(s, i)) { SameWait(s, React(s, i)); } else { DrainWaits(s); }
    }
  }

  lemma LongerWaits(s: State, i: Input)
    requires i.Steer? || i.FollowUp? || i.SetModes?
    ensures Waits(s, Step(s, i))
  {
  }
}
