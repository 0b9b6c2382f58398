/** The agent loop as a machine. One step is what runs between two awaits; between steps the model,
    the tools and the user act in any order. */
module AgentLoop {
  import opened AgentEvents
  import opened Text

  datatype Mode = All | OneAtATime

  datatype Queue = Queue(items: seq<Message>, mode: Mode) {
    /** What a poll takes out. */
    function Head(): seq<Message> {
      if mode == All || items == [] then items else items[..1]
    }

    function Rest(): Queue {
      this.(items := items[|Head()|..])
    }

    function Add(m: Message): Queue {
      this.(items := items + [m])
    }
  }

  /** The agent's own record, updated for each event. */
  datatype Agent = Agent(messages: seq<Message>, streaming: Option<Message>, pendingToolCalls: set<string>)

  function Reduce(a: Agent, e: Event): Agent {
    match e
    case MessageStart(m) => a.(streaming := Some(m))
    case MessageUpdate(m) => a.(streaming := Some(m))
    case MessageEnd(m) => a.(streaming := None, messages := a.messages + [m])
    case ToolStart(_, id) => a.(pendingToolCalls := a.pendingToolCalls + {id})
    case ToolEnd(_, id, _) => a.(pendingToolCalls := a.pendingToolCalls - {id})
    case AgentEnd(_) => a.(streaming := None)
    case _ => a
  }

  /** A tool call: being prepared; prepared, its execution to begin at a later step; being executed; done,
      with its end not yet reported; reported. */
  datatype Call = Preparing | Prepared | Busy | Settled(outcome: Outcome) | Reported(outcome: Outcome)

  datatype Style = Truncated | Sequential | Parallel

  /** The tool calls of a reply. `launched`: the parallel batch has started executing. `results`: result
      messages delivered, the next one being delivered if `open`. */
  datatype Batch = Batch(reply: Message, style: Style, calls: seq<Call>, launched: bool, results: nat, open: bool)

  datatype Stage =
    | Idle
    | Starting
    | FirstTurn
    | PromptStart(k: nat)
    | PromptEnd(k: nat)
    | FirstPoll
    | LoopHead
    | InjectStart(k: nat)
    | InjectEnd(k: nat)
    | Request(partial: Option<Message>)
    | ReplyStart(reply: Message)
    | ReplyEnd(reply: Message)
    | ReplyDone(reply: Message)
    | Tools(batch: Batch)
    | TurnEnding(reply: Message, executions: seq<Execution>, last: bool)
    | NextTurn
    | ShouldStop
    | Poll
    | FollowPoll
    | Finishing
    | Finished

  /** `base` is the conversation when the run began; `replaced` says that a hook put another context in
      place of the loop's own. `steered` and `followed` are all messages ever queued. */
  datatype State = State(
    stage: Stage, prompts: seq<Message>, pending: seq<Message>, firstTurn: bool, hasMore: bool, skipPoll: bool,
    newMessages: seq<Message>, context: seq<Message>, base: seq<Message>, replaced: bool, agent: Agent, aborted: bool,
    steering: Queue, followUp: Queue, steered: seq<Message>, followed: seq<Message>, trace: seq<Event>)

  datatype Input =
    | Steer(text: string)
    | FollowUp(text: string)
    | SetModes(steeringMode: Mode, followUpMode: Mode)
    | Abort
    | StartPrompt(texts: seq<string>)
    | StartContinue
    | Go
    | StreamStart(partial: Message)
    | StreamUpdate(partial: Message)
    | StreamDone(reply: Message)
    | Execute(parallel: bool)
    | Refuse(outcome: Outcome)
    | Accept
    | Progressed(position: nat)
    | Settle(position: nat, outcome: Outcome)
    | Report(position: nat)
    | Replace(context: Option<seq<Message>>)
    | Answer(stop: bool)

  function Emit(s: State, e: Event): State {
    s.(trace := s.trace + [e], agent := Reduce(s.agent, e))
  }

  const REFUSED_BY_ABORT := Outcome("Operation aborted", true, false)

  function Begin(s: State, prompts: seq<Message>, skipPoll: bool): State {
    s.(stage := Starting, prompts := prompts, pending := [], firstTurn := true, hasMore := true, skipPoll := skipPoll,
       newMessages := prompts, base := s.agent.messages, context := s.agent.messages + prompts, replaced := false,
       aborted := false, trace := [])
  }

  function Prompts(texts: seq<string>): seq<Message> {
    seq(|texts|, k requires 0 <= k < |texts| => User(texts[k], Prompted))
  }

  /** Continuing after a reply delivers what is queued, steering messages first. */
  function Continue(s: State): State {
    if s.agent.messages == [] then s
    else if !s.agent.messages[|s.agent.messages| - 1].Assistant? then Begin(s, [], false)
    else if s.steering.items != [] then
      Begin(s.(steering := s.steering.Rest()), s.steering.Head(), true)
    else if s.followUp.items != [] then
      Begin(s.(followUp := s.followUp.Rest()), s.followUp.Head(), false)
    else s
  }

  function PollSteering(s: State): State {
    s.(stage := LoopHead, pending := s.steering.Head(), steering := s.steering.Rest())
  }

  /** The run opens: the prompts are delivered in the first turn. */
  function Open(s: State): State {
    match s.stage
    case Starting => Emit(s, AgentStart).(stage := FirstTurn)
    case FirstTurn => Emit(s, TurnStart).(stage := PromptStart(0))
    case PromptStart(k) =>
      if k < |s.prompts| then Emit(s, MessageStart(s.prompts[k])).(stage := PromptEnd(k)) else s.(stage := FirstPoll)
    case PromptEnd(k) =>
      if k < |s.prompts| then Emit(s, MessageEnd(s.prompts[k])).(stage := PromptStart(k + 1)) else s
    case _ => s
  }

  /** The queues are polled. */
  function Drain(s: State): State {
    match s.stage
    case FirstPoll =>
      if s.skipPoll then s.(stage := LoopHead, pending := [], skipPoll := false) else PollSteering(s)
    case Poll => PollSteering(s)
    case FollowPoll =>
      if s.followUp.Head() != [] then
        s.(stage := LoopHead, pending := s.followUp.Head(), followUp := s.followUp.Rest(), hasMore := true)
      else s.(stage := Finishing)
    case _ => s
  }

  /** A turn begins; what was drained is delivered before the request. */
  function Inject(s: State): State {
    match s.stage
    case LoopHead =>
      if s.hasMore || s.pending != [] then
        if s.firstTurn then s.(stage := InjectStart(0), firstTurn := false)
        else Emit(s, TurnStart).(stage := InjectStart(0))
      else s.(stage := FollowPoll)
    case InjectStart(k) =>
      if k < |s.pending| then Emit(s, MessageStart(s.pending[k])).(stage := InjectEnd(k))
      else s.(stage := Request(None), pending := [])
    case InjectEnd(k) =>
      if k < |s.pending| then
        Emit(s, MessageEnd(s.pending[k])).(stage := InjectStart(k + 1), context := s.context + [s.pending[k]],
                                           newMessages := s.newMessages + [s.pending[k]])
      else s
    case _ => s
  }

  /** A reply is delivered; a turn and the run end. */
  function Close(s: State): State {
    match s.stage
    case ReplyStart(reply) => Emit(s, MessageStart(reply)).(stage := ReplyEnd(reply))
    case ReplyEnd(reply) =>
      Emit(s, MessageEnd(reply)).(stage := ReplyDone(reply), newMessages := s.newMessages + [reply])
    case TurnEnding(reply, executions, last) =>
      if reply.Assistant? && AllExecuted(executions) && |executions| <= |reply.calls| then
        Emit(s, TurnEnd(reply, ResultsOf(reply.calls, executions))).(stage := if last then Finishing else NextTurn)
      else s
    case Finishing => Emit(s, AgentEnd(s.newMessages)).(stage := Finished)
    case Finished => s.(stage := Idle, agent := s.agent.(streaming := None, pendingToolCalls := {}))
    case _ => s
  }

  /** The steps that need no decision from outside, outside a tool batch. */
  function Advance(s: State): State {
    match s.stage
    case Starting | FirstTurn | PromptStart(_) | PromptEnd(_) => Open(s)
    case FirstPoll | Poll | FollowPoll => Drain(s)
    case LoopHead | InjectStart(_) | InjectEnd(_) => Inject(s)
    case _ => Close(s)
  }

  /** Events of the model's response stream. */
  function Stream(s: State, i: Input): State
    requires s.stage.Request?
  {
    match i
    case StreamStart(m) =>
      if m.Assistant? && s.stage.partial.None? then
        Emit(s, MessageStart(m)).(stage := Request(Some(m)), context := s.context + [m])
      else s
    case StreamUpdate(m) =>
      if m.Assistant? && s.stage.partial.Some? && s.context != [] then
        Emit(s, MessageUpdate(m)).(stage := Request(Some(m)), context := s.context[|s.context| - 1 := m])
      else s
    case StreamDone(m) =>
      if !m.Assistant? then s
      else if s.stage.partial.Some? && s.context != [] then
        s.(stage := ReplyEnd(m), context := s.context[|s.context| - 1 := m])
      else s.(stage := ReplyStart(m), context := s.context + [m])
    case _ => s
  }

  /** After a reply: the turn ends, or its tool calls are carried out. */
  function Dispatch(s: State, reply: Message, parallel: bool): State
    requires reply.Assistant?
  {
    if reply.stop == Failed || reply.stop == Aborted then s.(stage := TurnEnding(reply, [], true))
    else if reply.calls == [] then s.(stage := TurnEnding(reply, [], false), hasMore := false)
    else
      var style := if reply.stop == Length then Truncated else if parallel then Parallel else Sequential;
      s.(stage := Tools(Batch(reply, style, [], false, 0, false)), hasMore := false)
  }

  predicate Reportable(calls: seq<Call>, n: nat) {
    n <= |calls| && forall k :: 0 <= k < n ==> calls[k].Reported?
  }

  function Executions(calls: seq<Call>): (es: seq<Execution>)
    ensures |es| == |calls|
    ensures forall k :: 0 <= k < |calls| ==>
            es[k] == if calls[k].Reported? then Executed(calls[k].outcome) else Executing
  {
    seq(|calls|, k requires 0 <= k < |calls| => if calls[k].Reported? then Executed(calls[k].outcome) else Executing)
  }

  /** The loop over the calls of the reply is over: there is no further call, or the abort signal is
      raised after the first. */
  predicate NoFurtherCall(s: State, b: Batch)
    requires b.reply.Assistant?
  {
    |b.calls| >= |b.reply.calls| || (b.style != Truncated && s.aborted && b.calls != [])
  }

  predicate AllTerminate(calls: seq<Call>) {
    calls != [] && forall k :: 0 <= k < |calls| ==> calls[k].Reported? && calls[k].outcome.terminate
  }

  /** The result message of a call that has ended. */
  function ResultMessage(b: Batch, k: nat): Message
    requires b.reply.Assistant? && k < |b.calls| && k < |b.reply.calls| && b.calls[k].Reported?
  {
    ToolResult(b.reply.calls[k].id, b.calls[k].outcome)
  }

  /** Every call that was started has ended, and a result is still to be delivered. */
  predicate ResultsDue(b: Batch) {
    b.results < |b.calls| && Reportable(b.calls, |b.calls|) && (b.style == Parallel ==> b.launched)
  }

  function DeliverResult(s: State, b: Batch): State
    requires s.stage == Tools(b) && b.reply.Assistant?
  {
    if b.results < |b.calls| && b.calls[b.results].Reported? && b.results < |b.reply.calls| then
      if b.open then
        Emit(s, MessageEnd(ResultMessage(b, b.results))).(stage := Tools(b.(open := false, results := b.results + 1)))
      else
        Emit(s, MessageStart(ResultMessage(b, b.results))).(stage := Tools(b.(open := true)))
    else s
  }

  /** The next call starts once the one before is over, or prepared if the calls run in parallel. */
  function StartCall(s: State, b: Batch): State
    requires s.stage == Tools(b) && b.reply.Assistant? && |b.calls| < |b.reply.calls|
  {
    if b.calls != []
       && !(b.calls[|b.calls| - 1].Reported? || (b.style == Parallel && b.calls[|b.calls| - 1].Prepared?)) then s
    else
      var first := if b.style == Truncated then Settled(REFUSED_BY_LENGTH) else Preparing;
      Emit(s, ToolStart(|b.calls|, b.reply.calls[|b.calls|].id)).(stage := Tools(b.(calls := b.calls + [first])))
  }

  function Launch(s: State, b: Batch): State
    requires s.stage == Tools(b)
  {
    if b.calls != [] && !(b.calls[|b.calls| - 1].Reported? || b.calls[|b.calls| - 1].Prepared?) then s
    else s.(stage := Tools(b.(launched := true, calls := Launched(b.calls))))
  }

  function EndBatch(s: State, b: Batch): State
    requires s.stage == Tools(b) && b.reply.Assistant?
  {
    if b.results == |b.calls| && Reportable(b.calls, |b.calls|) && |b.calls| <= |b.reply.calls| then
      var results := ResultsOf(b.reply.calls, Executions(b.calls));
      s.(stage := TurnEnding(b.reply, Executions(b.calls), false),
         hasMore := b.style == Truncated || !AllTerminate(b.calls),
         context := s.context + results, newMessages := s.newMessages + results)
    else s
  }

  /** In a batch that is not parallel the last call waits to be executed. */
  predicate ExecutionDue(b: Batch) {
    b.style != Parallel && b.calls != [] && b.calls[|b.calls| - 1].Prepared?
  }

  /** The next step of a batch that needs no decision from outside. A prepared call of a sequential batch
      is executed even if the abort signal was raised after its preparation. */
  function BatchStep(s: State, b: Batch): State
    requires s.stage == Tools(b) && b.reply.Assistant?
  {
    if b.open || ResultsDue(b) then DeliverResult(s, b)
    else if ExecutionDue(b) then SetCall(s, b, |b.calls| - 1, Busy)
    else if !b.launched && !NoFurtherCall(s, b) then StartCall(s, b)
    else if b.style == Parallel && !b.launched then Launch(s, b)
    else EndBatch(s, b)
  }

  function Launched(calls: seq<Call>): (r: seq<Call>)
    ensures |r| == |calls|
    ensures forall k :: 0 <= k < |calls| ==> r[k] == if calls[k].Prepared? then Busy else calls[k]
  {
    seq(|calls|, k requires 0 <= k < |calls| => if calls[k].Prepared? then Busy else calls[k])
  }

  function SetCall(s: State, b: Batch, k: nat, c: Call): State
    requires k < |b.calls|
  {
    s.(stage := Tools(b.(calls := b.calls[k := c])))
  }

  /** What tools and their preparation do. */
  function ToolInput(s: State, b: Batch, i: Input): State
    requires s.stage == Tools(b) && b.reply.Assistant?
  {
    var n := |b.calls|;
    match i
    case Go => BatchStep(s, b)
    case Refuse(outcome) =>
      if n > 0 && b.calls[n - 1].Preparing? then SetCall(s, b, n - 1, Settled(outcome.(terminate := false))) else s
    case Accept =>
      if n > 0 && b.calls[n - 1].Preparing? then
        SetCall(s, b, n - 1, if s.aborted then Settled(REFUSED_BY_ABORT) else Prepared)
      else s
    case Progressed(k) =>
      if k < n <= |b.reply.calls| && b.calls[k].Busy? then Emit(s, ToolUpdate(k, b.reply.calls[k].id)) else s
    case Settle(k, outcome) =>
      if k < n && b.calls[k].Busy? then SetCall(s, b, k, Settled(outcome)) else s
    case Report(k) =>
      if k < n <= |b.reply.calls| && b.calls[k].Settled? then
        SetCall(Emit(s, ToolEnd(k, b.reply.calls[k].id, b.calls[k].outcome)), b, k, Reported(b.calls[k].outcome))
      else s
    case _ => s
  }

  /** What the model, the tools and the loop itself do. */
  function React(s: State, i: Input): State {
    if s.stage.Request? then Stream(s, i)
    else if s.stage.Tools? && s.stage.batch.reply.Assistant? then ToolInput(s, s.stage.batch, i)
    else if i.Go? then Advance(s)
    else s
  }

  function Step(s: State, i: Input): State {
    match i
    case Steer(text) =>
      s.(steering := s.steering.Add(User(text, Steered)), steered := s.steered + [User(text, Steered)])
    case FollowUp(text) =>
      s.(followUp := s.followUp.Add(User(text, FollowedUp)), followed := s.followed + [User(text, FollowedUp)])
    case SetModes(m, n) => s.(steering := s.steering.(mode := m), followUp := s.followUp.(mode := n))
    case Abort => if s.stage.Idle? then s else Emit(s, AbortRequested).(aborted := true)
    case StartPrompt(texts) => if s.stage.Idle? then Begin(s, Prompts(texts), false) else s
    case StartContinue => if s.stage.Idle? then Continue(s) else s
    case Execute(parallel) =>
      if s.stage.ReplyDone? && s.stage.reply.Assistant? then Dispatch(s, s.stage.reply, parallel) else s
    case Replace(context) =>
      if s.stage.NextTurn? then
        if context.Some? then s.(stage := ShouldStop, context := context.value, replaced := true)
        else s.(stage := ShouldStop)
      else s
    case Answer(stop) =>
      if s.stage.ShouldStop? then s.(stage := if stop then Finishing else Poll) else s
    case _ => React(s, i)
  }

  function Start(messages: seq<Message>, m: Mode, n: Mode): State {
    State(Idle, [], [], true, true, false, [], messages, messages, false, Agent(messages, None, {}), false,
          Queue([], m), Queue([], n), [], [], [])
  }

  function Run(s: State, inputs: seq<Input>): State {
    if inputs == [] then s else Step(Run(s, inputs[..|inputs| - 1]), inputs[|inputs| - 1])
  }
}
