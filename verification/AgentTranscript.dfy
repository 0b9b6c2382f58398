/** The run's transcript: the messages delivered, the messages returned and the model's context agree. */
module AgentTranscript {
  import opened AgentEvents
  import opened AgentLoop
  import opened AgentSafety
  import opened AgentMirror
  import opened Text

  /** What `agent_end` has announced. */
  function Returned(trace: seq<Event>): Option<seq<Message>> {
    if trace == [] then None
    else if trace[|trace| - 1].AgentEnd? then Some(trace[|trace| - 1].messages)
    else Returned(trace[..|trace| - 1])
  }

  function From(messages: seq<Message>, k: nat): seq<Message> {
    if k <= |messages| then messages[k..] else []
  }

  /** Messages of the run that are not delivered yet: prompts. */
  function Ahead(s: State): seq<Message> {
    match s.stage
    case Starting | FirstTurn => s.prompts
    case PromptStart(k) => From(s.prompts, k)
    case PromptEnd(k) => From(s.prompts, k)
    case _ => []
  }

  predicate Countable(b: Batch) {
    b.reply.Assistant? && b.results <= |b.calls| <= |b.reply.calls| && Reportable(b.calls, b.results)
  }

  function ResultMessages(b: Batch): (r: seq<Message>)
    requires Countable(b)
  {
    seq(b.results, k requires 0 <= k < b.results => ResultMessage(b, k))
  }

  /** Messages delivered that the run has not stored yet: results of the batch under way. */
  function Behind(s: State): seq<Message> {
    if s.stage.Tools? && Countable(s.stage.batch) then ResultMessages(s.stage.batch) else []
  }

  /** The reply the context holds before it is complete. */
  function Incomplete(s: State): seq<Message> {
    match s.stage
    case Request(Some(m)) => [m]
    case ReplyStart(reply) => [reply]
    case ReplyEnd(reply) => [reply]
    case _ => []
  }

  predicate Over(s: State) {
    s.stage.Finished? || (s.stage.Idle? && s.trace != [])
  }

  predicate Balanced(delivered: seq<Message>, ahead: seq<Message>, stored: seq<Message>, behind: seq<Message>) {
    delivered + ahead == stored + behind
  }

  predicate Extends(context: seq<Message>, base: seq<Message>, stored: seq<Message>, incomplete: seq<Message>) {
    context == base + stored + incomplete
  }

  /** Delivered messages and stored messages agree, the context is the conversation, and `agent_end` has
      announced what was stored. */
  predicate Ledger(s: State) {
    && Balanced(Delivered(s.trace), Ahead(s), s.newMessages, Behind(s))
    && (!s.replaced ==> Extends(s.context, s.base, s.newMessages, Incomplete(s)))
    && Returned(s.trace) == if Over(s) then Some(s.newMessages) else None
  }

  lemma EmitBooks(s: State, e: Event)
    ensures var t := Emit(s, e);
            && t.newMessages == s.newMessages && t.context == s.context && t.base == s.base && t.replaced == s.replaced
            && t.prompts == s.prompts && t.stage == s.stage
    ensures Delivered(Emit(s, e).trace)
         == if e.MessageEnd? then Delivered(s.trace) + [e.message] else Delivered(s.trace)
    ensures Returned(Emit(s, e).trace) == if e.AgentEnd? then Some(e.messages) else Returned(s.trace)
  {
    DeliveredPush(s.trace, e);
    assert (s.trace + [e])[..|s.trace|] == s.trace;
  }

  lemma Shift(d: seq<Message>, p: seq<Message>, k: nat, stored: seq<Message>)
    requires k < |p| && Balanced(d, From(p, k), stored, [])
    ensures Balanced(d + [p[k]], From(p, k + 1), stored, [])
  {
    assert d + From(p, k) == (d + [p[k]]) + From(p, k + 1);
  }

  lemma Ends(p: seq<Message>)
    ensures From(p, 0) == p && From(p, |p|) == []
  {
  }

  lemma PromptBounds(s: State)
    requires Control(s)
    ensures s.stage.PromptStart? ==> s.stage.k <= |s.prompts|
    ensures s.stage.PromptEnd? ==> s.stage.k < |s.prompts|
  {
  }

  lemma TurnEndBounds(s: State)
    requires Control(s) && s.stage.TurnEnding?
    ensures s.stage.reply.Assistant? && AllExecuted(s.stage.executions) && |s.stage.executions| <= |s.stage.reply.calls|
  {
  }

  lemma BeginBooks(s: State)
    requires Ledger(s) && (s.stage.Starting? || s.stage.FirstTurn?)
    ensures Ledger(Open(s))
  {
    hide Delivered, Returned, Emit, Balanced, Extends, From;
    Ends(s.prompts);
    if s.stage.Starting? {
      EmitBooks(s, AgentStart);
      assert Ledger(Open(s));
    } else {
      EmitBooks(s, TurnStart);
      assert Ledger(Open(s));
    }
  }

  lemma PromptStartBooks(s: State)
    requires Ledger(s) && Control(s) && s.stage.PromptStart?
    ensures Ledger(Open(s))
  {
    hide Control, Delivered, Returned, Emit, Balanced, Extends, From;
    var k := s.stage.k;
    PromptBounds(s);
    Ends(s.prompts);
    if k < |s.prompts| {
      EmitBooks(s, MessageStart(s.prompts[k]));
      assert Ledger(Open(s));
    } else {
      assert Ledger(Open(s));
    }
  }

  lemma PromptEndBooks(s: State)
    requires Ledger(s) && Control(s) && s.stage.PromptEnd?
    ensures Ledger(Open(s))
  {
    hide Control, Delivered, Returned, Emit, From, Balanced, Extends;
    PromptBounds(s);
    EmitBooks(s, MessageEnd(s.prompts[s.stage.k]));
    Shift(Delivered(s.trace), s.prompts, s.stage.k, s.newMessages);
  }

  /** Stages at which everything delivered is stored and the context holds no incomplete reply. */
  predicate Quiet(stage: Stage) {
    match stage
    case FirstPoll | LoopHead | InjectStart(_) | InjectEnd(_) | ReplyDone(_) | TurnEnding(_, _, _) | NextTurn
       | ShouldStop | Poll | FollowPoll | Finishing => true
    case Request(partial) => partial.None?
    case _ => false
  }

  lemma QuietStep(s: State, t: State)
    requires Ledger(s) && Quiet(s.stage) && Quiet(t.stage)
    requires t.newMessages == s.newMessages && t.context == s.context && t.base == s.base && t.replaced == s.replaced
    requires Delivered(t.trace) == Delivered(s.trace) && Returned(t.trace) == Returned(s.trace)
    ensures Ledger(t)
  {
    hide Delivered, Returned, Balanced, Extends;
  }

  lemma DrainKeeps(s: State)
    requires s.stage.FirstPoll? || s.stage.Poll? || s.stage.FollowPoll?
    ensures var t := Drain(s);
            && (t.stage.LoopHead? || t.stage.Finishing?) && t.newMessages == s.newMessages && t.context == s.context
            && t.base == s.base && t.replaced == s.replaced && t.trace == s.trace
  {
    hide Queue.Head, Queue.Rest, PollSteering;
    PollKeeps(s);
  }

  lemma PollKeeps(s: State)
    ensures var t := PollSteering(s);
            && t.stage.LoopHead? && t.newMessages == s.newMessages && t.context == s.context
            && t.base == s.base && t.replaced == s.replaced && t.trace == s.trace
  {
    hide Queue.Head, Queue.Rest;
  }

  lemma DrainBooks(s: State)
    requires Ledger(s) && (s.stage.FirstPoll? || s.stage.Poll? || s.stage.FollowPoll?)
    ensures Ledger(Drain(s))
  {
    hide Ledger, Delivered, Returned, Drain;
    DrainKeeps(s);
    QuietStep(s, Drain(s));
  }

  lemma LoopHeadBooks(s: State)
    requires Ledger(s) && s.stage.LoopHead?
    ensures Ledger(Inject(s))
  {
    hide Ledger, Delivered, Returned, Emit;
    EmitBooks(s, TurnStart);
    QuietStep(s, Inject(s));
  }

  lemma InjectStartBooks(s: State)
    requires Ledger(s) && s.stage.InjectStart?
    ensures Ledger(Inject(s))
  {
    hide Ledger, Delivered, Returned, Emit;
    if s.stage.k < |s.pending| {
      EmitBooks(s, MessageStart(s.pending[s.stage.k]));
      QuietStep(s, Inject(s));
    } else {
      QuietStep(s, Inject(s));
    }
  }

  lemma Store(d: seq<Message>, stored: seq<Message>, context: seq<Message>, base: seq<Message>, m: Message)
    requires Balanced(d, [], stored, [])
    ensures Balanced(d + [m], [], stored + [m], [])
    ensures Extends(context, base, stored, []) ==> Extends(context + [m], base, stored + [m], [])
    ensures Extends(context, base, stored, [m]) ==> Extends(context, base, stored + [m], [])
  {
    assert d + [] == d && stored + [] == stored && base + stored + [] == base + stored;
    assert base + stored + [m] == base + (stored + [m]);
    assert base + (stored + [m]) + [] == base + (stored + [m]);
  }

  lemma InjectEndBooks(s: State)
    requires Ledger(s) && s.stage.InjectEnd?
    ensures Ledger(Inject(s))
  {
    hide Delivered, Returned, Emit, Balanced, Extends;
    if s.stage.k < |s.pending| {
      var m := s.pending[s.stage.k];
      EmitBooks(s, MessageEnd(m));
      Store(Delivered(s.trace), s.newMessages, s.context, s.base, m);
      assert Ledger(Inject(s));
    }
  }

  lemma ReplyStartBooks(s: State)
    requires Ledger(s) && s.stage.ReplyStart?
    ensures Ledger(Close(s))
  {
    hide Delivered, Returned, Emit, Balanced, Extends;
    EmitBooks(s, MessageStart(s.stage.reply));
  }

  lemma ReplyEndBooks(s: State)
    requires Ledger(s) && s.stage.ReplyEnd?
    ensures Ledger(Close(s))
  {
    hide Delivered, Returned, Emit, Balanced, Extends;
    EmitBooks(s, MessageEnd(s.stage.reply));
    Store(Delivered(s.trace), s.newMessages, s.context, s.base, s.stage.reply);
  }

  lemma TurnEndBooks(s: State)
    requires Ledger(s) && Control(s) && s.stage.TurnEnding?
    ensures Ledger(Close(s))
  {
    hide Ledger, Control, Delivered, Returned, Emit, ResultsOf, AllExecuted;
    TurnEndBounds(s);
    EmitBooks(s, TurnEnd(s.stage.reply, ResultsOf(s.stage.reply.calls, s.stage.executions)));
    QuietStep(s, Close(s));
  }

  lemma FinishingBooks(s: State)
    requires Ledger(s) && s.stage.Finishing?
    ensures Ledger(Close(s))
  {
    hide Delivered, Returned, Emit, Balanced, Extends;
    EmitBooks(s, AgentEnd(s.newMessages));
  }

  lemma FinishedBooks(s: State)
    requires Ledger(s) && s.stage.Finished?
    ensures Ledger(Close(s))
  {
    assert s.trace != [];
    hide Delivered, Returned, Balanced, Extends;
  }

  lemma AdvanceBooks(s: State)
    requires Ledger(s) && Control(s)
    ensures Ledger(Advance(s))
  {
    hide Ledger, Control, Open, Inject, Drain;
    match s.stage {
      case Starting | FirstTurn => BeginBooks(s);
      case PromptStart(_) => PromptStartBooks(s);
      case PromptEnd(_) => PromptEndBooks(s);
      case FirstPoll | Poll | FollowPoll => DrainBooks(s);
      case LoopHead => LoopHeadBooks(s);
      case InjectStart(_) => InjectStartBooks(s);
      case InjectEnd(_) => InjectEndBooks(s);
      case ReplyStart(_) => ReplyStartBooks(s);
      case ReplyEnd(_) => ReplyEndBooks(s);
      case TurnEnding(_, _, _) => TurnEndBooks(s);
      case Finishing => FinishingBooks(s);
      case Finished => FinishedBooks(s);
      case _ => assert Close(s) == s;
    }
  }

  lemma Complete(context: seq<Message>, base: seq<Message>, stored: seq<Message>, before: seq<Message>, m: Message)
    requires Extends(context, base, stored, before)
    ensures before == [] ==> Extends(context + [m], base, stored, [m])
    ensures |before| == 1 ==> context != [] && Extends(context[|context| - 1 := m], base, stored, [m])
  {
  }

  lemma StreamStartBooks(s: State, m: Message)
    requires Ledger(s) && s.stage.Request? && s.stage.partial.None? && m.Assistant?
    ensures Ledger(Stream(s, StreamStart(m)))
  {
    hide Delivered, Returned, Emit, Balanced, Extends;
    if !s.replaced { Complete(s.context, s.base, s.newMessages, [], m); }
    EmitBooks(s, MessageStart(m));
  }

  lemma StreamUpdateBooks(s: State, m: Message)
    requires Ledger(s) && s.stage.Request? && s.stage.partial.Some? && m.Assistant? && s.context != []
    ensures Ledger(Stream(s, StreamUpdate(m)))
  {
    hide Delivered, Returned, Emit, Balanced, Extends;
    if !s.replaced { Complete(s.context, s.base, s.newMessages, [s.stage.partial.value], m); }
    EmitBooks(s, MessageUpdate(m));
  }

  lemma StreamDoneBooks(s: State, m: Message)
    requires Ledger(s) && s.stage.Request? && m.Assistant? && (s.stage.partial.Some? ==> s.context != [])
    ensures Ledger(Stream(s, StreamDone(m)))
  {
    hide Delivered, Returned, Balanced, Extends;
    if s.stage.partial.Some? {
      if !s.replaced { Complete(s.context, s.base, s.newMessages, [s.stage.partial.value], m); }
      assert Ledger(Stream(s, StreamDone(m)));
    } else {
      if !s.replaced { Complete(s.context, s.base, s.newMessages, [], m); }
      assert Ledger(Stream(s, StreamDone(m)));
    }
  }

  lemma NoResults(b: Batch)
    requires Countable(b) && b.results == 0
    ensures ResultMessages(b) == []
  {
  }

  lemma DispatchKeeps(s: State, reply: Message, parallel: bool)
    requires reply.Assistant?
    ensures var t := Dispatch(s, reply, parallel);
            && t.newMessages == s.newMessages && t.context == s.context && t.base == s.base && t.replaced == s.replaced
            && t.trace == s.trace
            && (t.stage.TurnEnding? || (t.stage.Tools? && Countable(t.stage.batch) && t.stage.batch.results == 0))
  {
  }

  lemma BatchBegins(s: State, t: State)
    requires Ledger(s) && s.stage.ReplyDone? && t.stage.Tools? && Countable(t.stage.batch) && t.stage.batch.results == 0
    requires t.newMessages == s.newMessages && t.context == s.context && t.base == s.base && t.replaced == s.replaced
    requires t.trace == s.trace
    ensures Ledger(t)
  {
    hide Delivered, Returned, Balanced, Extends, ResultMessages, Countable;
    NoResults(t.stage.batch);
  }

  lemma DispatchBooks(s: State, parallel: bool)
    requires Ledger(s) && s.stage.ReplyDone? && s.stage.reply.Assistant?
    ensures Ledger(Dispatch(s, s.stage.reply, parallel))
  {
    hide Ledger, Dispatch, Countable, Delivered, Returned;
    DispatchKeeps(s, s.stage.reply, parallel);
    var t := Dispatch(s, s.stage.reply, parallel);
    if t.stage.Tools? {
      BatchBegins(s, t);
    } else {
      QuietStep(s, t);
    }
  }

  lemma ResultsSame(b: Batch, c: Batch)
    requires Countable(b) && Countable(c) && b.results == c.results && b.reply == c.reply
    requires forall k :: 0 <= k < b.results ==> b.calls[k] == c.calls[k]
    ensures ResultMessages(b) == ResultMessages(c)
  {
  }

  /** A step of a batch that delivers no result. */
  lemma BatchChange(s: State, t: State, b: Batch, c: Batch)
    requires Ledger(s) && s.stage == Tools(b) && t.stage == Tools(c)
    requires Countable(b) && Countable(c) && b.results == c.results && b.reply == c.reply
    requires forall k :: 0 <= k < b.results ==> b.calls[k] == c.calls[k]
    requires t.newMessages == s.newMessages && t.context == s.context && t.base == s.base && t.replaced == s.replaced
    requires Delivered(t.trace) == Delivered(s.trace) && Returned(t.trace) == Returned(s.trace)
    ensures Ledger(t)
  {
    hide Delivered, Returned, Balanced, Extends, ResultMessages, Countable;
    ResultsSame(b, c);
  }

  lemma Answered(d: seq<Message>, stored: seq<Message>, b: Batch)
    requires Countable(b) && b.results < |b.calls| && b.calls[b.results].Reported?
    requires Balanced(d, [], stored, ResultMessages(b))
    ensures var c := b.(open := false, results := b.results + 1);
            Countable(c) && Balanced(d + [ResultMessage(b, b.results)], [], stored, ResultMessages(c))
  {
    var c, r := b.(open := false, results := b.results + 1), ResultMessages(b);
    assert ResultMessages(c) == r + [ResultMessage(b, b.results)];
    assert d + [] == d && (d + [ResultMessage(b, b.results)]) + [] == d + [ResultMessage(b, b.results)];
    assert stored + (r + [ResultMessage(b, b.results)]) == stored + r + [ResultMessage(b, b.results)];
  }

  lemma BatchBounds(s: State, b: Batch)
    requires Control(s) && s.stage == Tools(b)
    ensures Countable(b) && b.reply.Assistant? && (b.open ==> b.results < |b.calls| && b.calls[b.results].Reported?)
  {
  }

  lemma ResultEndBooks(s: State, b: Batch)
    requires Ledger(s) && s.stage == Tools(b) && b.open
    requires Countable(b) && b.results < |b.calls| && b.calls[b.results].Reported?
    ensures Ledger(DeliverResult(s, b))
  {
    hide Delivered, Returned, Emit, Balanced, Extends, ResultMessages, Reportable;
    EmitBooks(s, MessageEnd(ResultMessage(b, b.results)));
    Answered(Delivered(s.trace), s.newMessages, b);
  }

  lemma ResultStartBooks(s: State, b: Batch)
    requires Ledger(s) && s.stage == Tools(b) && !b.open
    requires Countable(b) && b.results < |b.calls| && b.calls[b.results].Reported?
    ensures Ledger(DeliverResult(s, b))
  {
    hide Delivered, Returned, Emit, Ledger;
    EmitBooks(s, MessageStart(ResultMessage(b, b.results)));
    BatchChange(s, DeliverResult(s, b), b, b.(open := true));
  }

  lemma StartCallBooks(s: State, b: Batch)
    requires Ledger(s) && s.stage == Tools(b) && Countable(b) && |b.calls| < |b.reply.calls|
    ensures Ledger(StartCall(s, b))
  {
    hide Delivered, Returned, Emit, Ledger;
    if StartCall(s, b) != s {
      EmitBooks(s, ToolStart(|b.calls|, b.reply.calls[|b.calls|].id));
      var first := if b.style == Truncated then Settled(REFUSED_BY_LENGTH) else Preparing;
      BatchChange(s, StartCall(s, b), b, b.(calls := b.calls + [first]));
    }
  }

  lemma LaunchBooks(s: State, b: Batch)
    requires Ledger(s) && s.stage == Tools(b) && Countable(b)
    ensures Ledger(Launch(s, b))
  {
    hide Delivered, Returned, Ledger;
    if Launch(s, b) != s {
      BatchChange(s, Launch(s, b), b, b.(launched := true, calls := Launched(b.calls)));
    }
  }

  lemma AllResults(b: Batch)
    requires Countable(b) && b.results == |b.calls|
    ensures AllExecuted(Executions(b.calls)) && ResultsOf(b.reply.calls, Executions(b.calls)) == ResultMessages(b)
  {
  }

  lemma StoreResults(d: seq<Message>, stored: seq<Message>, context: seq<Message>, base: seq<Message>,
                     results: seq<Message>)
    requires Balanced(d, [], stored, results)
    ensures Balanced(d, [], stored + results, [])
    ensures Extends(context, base, stored, []) ==> Extends(context + results, base, stored + results, [])
  {
    assert stored + results + [] == stored + results;
    assert base + stored + [] == base + stored;
    assert base + (stored + results) + [] == base + stored + results;
  }

  lemma EndBatchBooks(s: State, b: Batch)
    requires Ledger(s) && s.stage == Tools(b) && Countable(b)
    ensures Ledger(EndBatch(s, b))
  {
    hide Delivered, Returned, Balanced, Extends, ResultMessages, Executions, ResultsOf, Reportable, AllTerminate;
    if EndBatch(s, b) != s {
      AllResults(b);
      StoreResults(Delivered(s.trace), s.newMessages, s.context, s.base, ResultMessages(b));
      assert Ledger(EndBatch(s, b));
    }
  }

  lemma BatchBooks(s: State, b: Batch)
    requires Ledger(s) && Control(s) && s.stage == Tools(b) && b.reply.Assistant?
    ensures Ledger(BatchStep(s, b))
  {
    hide Ledger, Control, DeliverResult, StartCall, Launch, EndBatch, Countable, SetCall;
    BatchBounds(s, b);
    if b.open {
      ResultEndBooks(s, b);
    } else if ResultsDue(b) {
      ResultStartBooks(s, b);
    } else if ExecutionDue(b) {
      SetCallBooks(s, b, |b.calls| - 1, Busy);
    } else if !b.launched && !NoFurtherCall(s, b) {
      StartCallBooks(s, b);
    } else if b.style == Parallel && !b.launched {
      LaunchBooks(s, b);
    } else {
      EndBatchBooks(s, b);
    }
  }

  lemma SetCallBooks(s: State, b: Batch, k: nat, c: Call)
    requires Ledger(s) && s.stage == Tools(b) && Countable(b) && k < |b.calls| && !b.calls[k].Reported?
    ensures Ledger(SetCall(s, b, k, c))
  {
    hide Delivered, Returned, Ledger;
    BatchChange(s, SetCall(s, b, k, c), b, b.(calls := b.calls[k := c]));
  }

  lemma ReportBooks(s: State, b: Batch, k: nat)
    requires Ledger(s) && s.stage == Tools(b) && Countable(b) && k < |b.calls| && b.calls[k].Settled?
    ensures Ledger(ToolInput(s, b, Report(k)))
  {
    hide Delivered, Returned, Ledger, Emit;
    var e := ToolEnd(k, b.reply.calls[k].id, b.calls[k].outcome);
    EmitBooks(s, e);
    BatchChange(s, Emit(s, e).(stage := Tools(b)), b, b);
    SetCallBooks(Emit(s, e).(stage := Tools(b)), b, k, Reported(b.calls[k].outcome));
  }

  lemma ProgressedBooks(s: State, b: Batch, k: nat)
    requires Ledger(s) && s.stage == Tools(b) && Countable(b) && k < |b.calls| && b.calls[k].Busy?
    ensures Ledger(ToolInput(s, b, Progressed(k)))
  {
    hide Delivered, Returned, Ledger, Emit;
    EmitBooks(s, ToolUpdate(k, b.reply.calls[k].id));
    BatchChange(s, ToolInput(s, b, Progressed(k)), b, b);
  }

  lemma ToolBooks(s: State, b: Batch, i: Input)
    requires Ledger(s) && Control(s) && s.stage == Tools(b) && b.reply.Assistant?
    ensures Ledger(ToolInput(s, b, i))
  {
    hide Ledger, Control, BatchStep, Countable, SetCall, Emit;
    BatchBounds(s, b);
    var n := |b.calls|;
    match i {
      case Go => BatchBooks(s, b);
      case Refuse(outcome) =>
        if n > 0 && b.calls[n - 1].Preparing? { SetCallBooks(s, b, n - 1, Settled(outcome.(terminate := false))); }
      case Accept =>
        if n > 0 && b.calls[n - 1].Preparing? {
          SetCallBooks(s, b, n - 1, if s.aborted then Settled(REFUSED_BY_ABORT) else Prepared);
        }
      case Progressed(k) => if k < n && b.calls[k].Busy? { ProgressedBooks(s, b, k); }
      case Settle(k, outcome) => if k < n && b.calls[k].Busy? { SetCallBooks(s, b, k, Settled(outcome)); }
      case Report(k) => if k < n && b.calls[k].Settled? { ReportBooks(s, b, k); }
      case _ =>
    }
  }

  lemma ReactBooks(s: State, i: Input)
    requires Ledger(s) && Control(s)
    ensures Ledger(React(s, i))
  {
    hide Ledger, Control, Stream, ToolInput, Advance;
    if s.stage.Request? {
      RequestBooks(s, i);
    } else if s.stage.Tools? && s.stage.batch.reply.Assistant? {
      ToolBooks(s, s.stage.batch, i);
    } else if i.Go? {
      AdvanceBooks(s);
    }
  }

  lemma RequestBounds(s: State)
    requires Control(s) && s.stage.Request?
    ensures s.stage.partial.Some? ==> s.context != []
  {
  }

  lemma RequestBooks(s: State, i: Input)
    requires Ledger(s) && Control(s) && s.stage.Request?
    ensures Ledger(Stream(s, i))
  {
    hide Ledger, Control, Emit;
    RequestBounds(s);
    match i {
      case StreamStart(m) => if m.Assistant? && s.stage.partial.None? { StreamStartBooks(s, m); }
      case StreamUpdate(m) => if m.Assistant? && s.stage.partial.Some? { StreamUpdateBooks(s, m); }
      case StreamDone(m) => if m.Assistant? { StreamDoneBooks(s, m); }
      case _ =>
    }
  }

  lemma BegunBooks(s: State, prompts: seq<Message>, skipPoll: bool)
    ensures Ledger(Begin(s, prompts, skipPoll))
  {
    var base := s.agent.messages;
    assert [] + prompts == prompts + [];
    assert base + prompts + [] == base + prompts;
  }

  lemma StartBooks(s: State, i: Input)
    requires Ledger(s) && s.stage.Idle? && (i.StartPrompt? || i.StartContinue?)
    ensures Ledger(Step(s, i))
  {
    hide Ledger, Begin;
    if i.StartPrompt? {
      BegunBooks(s, Prompts(i.texts), false);
    } else {
      BegunBooks(s, [], false);
      BegunBooks(s.(steering := s.steering.Rest()), s.steering.Head(), true);
      BegunBooks(s.(followUp := s.followUp.Rest()), s.followUp.Head(), false);
    }
  }

  lemma SameBooks(s: State, t: State)
    requires Ledger(s) && t.stage == s.stage && t.prompts == s.prompts
    requires t.newMessages == s.newMessages && t.context == s.context && t.base == s.base && t.replaced == s.replaced
    requires Delivered(t.trace) == Delivered(s.trace) && Returned(t.trace) == Returned(s.trace) && Over(t) == Over(s)
    ensures Ledger(t)
  {
    hide Delivered, Returned, Balanced, Extends, ResultMessages, Countable, From;
  }

  lemma AbortBooks(s: State)
    requires Ledger(s)
    ensures Ledger(Step(s, Abort))
  {
    hide Ledger, Delivered, Returned, Emit;
    if !s.stage.Idle? {
      EmitBooks(s, AbortRequested);
      SameBooks(s, Step(s, Abort));
    }
  }

  lemma ReplaceBooks(s: State, context: Option<seq<Message>>)
    requires Ledger(s)
    ensures Ledger(Step(s, Replace(context)))
  {
    hide Delivered, Returned, Balanced, Extends, React, Continue, Begin, Dispatch, Emit;
    if s.stage.NextTurn? {
      if context.Some? {
        assert Ledger(Step(s, Replace(context)));
      } else {
        assert Ledger(Step(s, Replace(context)));
      }
    }
  }

  lemma AnswerBooks(s: State, stop: bool)
    requires Ledger(s)
    ensures Ledger(Step(s, Answer(stop)))
  {
    hide Ledger, Delivered, Returned;
    if s.stage.ShouldStop? {
      QuietStep(s, Step(s, Answer(stop)));
    }
  }

  lemma QueueBooks(s: State, i: Input)
    requires Ledger(s) && (i.Steer? || i.FollowUp? || i.SetModes?)
    ensures Ledger(Step(s, i))
  {
    hide Ledger, Delivered, Returned;
    SameBooks(s, Step(s, i));
  }

  lemma StepBooks(s: State, i: Input)
    requires Ledger(s) && Control(s)
    ensures Ledger(Step(s, i))
  {
    hide Ledger, Control, React, Dispatch, Begin, Continue, Emit;
    match i {
      case Steer(_) | FollowUp(_) | SetModes(_, _) => QueueBooks(s, i);
      case Abort => AbortBooks(s);
      case Replace(context) => ReplaceBooks(s, context);
      case Answer(stop) => AnswerBooks(s, stop);
      case StartPrompt(_) | StartContinue => if s.stage.Idle? { StartBooks(s, i); }
      case Execute(parallel) => if s.stage.ReplyDone? && s.stage.reply.Assistant? { DispatchBooks(s, parallel); }
      case _ => ReactBooks(s, i);
    }
  }

  lemma {:induction false} AllBooks(messages: seq<Message>, m: Mode, n: Mode, inputs: seq<Input>)
    ensures Ledger(AgentLoop.Run(Start(messages, m, n), inputs))
  {
    if inputs == [] {
      assert messages + [] + [] == messages;
    } else {
      var front := inputs[..|inputs| - 1];
      AllBooks(messages, m, n, front);
      EveryRunIsWellFormed(messages, m, n, front);
      hide Ledger, Grammar, FirstTurnFlag, Step, Follow;
      StepBooks(AgentLoop.Run(Start(messages, m, n), front), inputs[|inputs| - 1]);
    }
  }

  /** When a run is over: the messages of its `message_end` events, in order, are what it returned, what
      the agent's record has gained and, unless a hook replaced the context, what the context has gained.
      Before that, the record has gained exactly what was delivered so far. */
  lemma TranscriptAgrees(messages: seq<Message>, m: Mode, n: Mode, inputs: seq<Input>)
    ensures var s := AgentLoop.Run(Start(messages, m, n), inputs);
            && s.agent.messages == s.base + Delivered(s.trace)
            && (Over(s) ==>
                  && Returned(s.trace) == Some(Delivered(s.trace))
                  && s.newMessages == Delivered(s.trace)
                  && (!s.replaced ==> s.context == s.agent.messages))
            && (!Over(s) ==> Returned(s.trace) == None)
  {
    var s := AgentLoop.Run(Start(messages, m, n), inputs);
    AllBooks(messages, m, n, inputs);
    EveryRunMirrorsItsTrace(messages, m, n, inputs);
    assert Delivered(s.trace) + [] == Delivered(s.trace) && s.newMessages + [] == s.newMessages;
    assert s.base + s.newMessages + [] == s.base + s.newMessages;
  }

  /** At each request to the model the context ends with everything delivered so far. */
  lemma RequestSeesTranscript(messages: seq<Message>, m: Mode, n: Mode, inputs: seq<Input>)
    ensures var s := AgentLoop.Run(Start(messages, m, n), inputs);
            s.stage == Request(None) ==>
              && s.newMessages == Delivered(s.trace)
              && (!s.replaced ==> s.context == s.agent.messages)
  {
    var s := AgentLoop.Run(Start(messages, m, n), inputs);
    AllBooks(messages, m, n, inputs);
    EveryRunMirrorsItsTrace(messages, m, n, inputs);
    assert Delivered(s.trace) + [] == Delivered(s.trace) && s.newMessages + [] == s.newMessages;
    assert s.base + s.newMessages + [] == s.base + s.newMessages;
  }
}
