/** What an abort stops in the tool batch under way, and what it does not. */
module AgentAborts {
  import opened AgentEvents
  import opened AgentLoop
  import opened AgentSafety
  import opened Text

  // One step.

  /** What one step after an abort does to the calls of the batch. No call becomes prepared. One begins to
      execute only if it was prepared, and a prepared one stays so until it does. A further call starts only
      if none has, except in a batch for a cut-off reply, whose calls are refused and never executed. */
  predicate HoldsBack(b: Batch, c: Batch) {
    && c.reply == b.reply && c.style == b.style
    && |b.calls| <= |c.calls|
    && (b.style != Truncated ==> |c.calls| <= Max(1, |b.calls|))
    && (forall k :: 0 <= k < |c.calls| && c.calls[k].Busy? ==>
          k < |b.calls| && (b.calls[k].Busy? || b.calls[k].Prepared?))
    && (forall k :: 0 <= k < |c.calls| && c.calls[k].Prepared? ==> k < |b.calls| && b.calls[k].Prepared?)
    && (forall k :: 0 <= k < |b.calls| && b.calls[k].Prepared? ==> c.calls[k].Prepared? || c.calls[k].Busy?)
  }

  /** A batch that is left: every call that was started has ended, and one was, or all of a cut-off reply. */
  predicate Left(b: Batch) {
    && Reportable(b.calls, |b.calls|) && b.calls != []
    && (b.style == Truncated ==> b.reply.Assistant? && |b.calls| == |b.reply.calls|)
  }

  lemma BatchFacts(s: State, b: Batch)
    requires Sound(s) && s.stage == Tools(b)
    ensures BatchOk(b, s.aborted) && b.reply.Assistant?
  {
  }

  lemma DeliverHoldsBack(s: State, b: Batch)
    requires s.stage == Tools(b) && b.reply.Assistant?
    ensures DeliverResult(s, b).stage.Tools? && HoldsBack(b, DeliverResult(s, b).stage.batch)
  {
    hide Reduce;
  }

  lemma ExecuteHoldsBack(s: State, b: Batch)
    requires s.stage == Tools(b) && ExecutionDue(b)
    ensures HoldsBack(b, SetCall(s, b, |b.calls| - 1, Busy).stage.batch)
  {
  }

  lemma StartHoldsBack(s: State, b: Batch)
    requires s.aborted && s.stage == Tools(b) && b.reply.Assistant? && !NoFurtherCall(s, b)
    ensures StartCall(s, b).stage.Tools? && HoldsBack(b, StartCall(s, b).stage.batch)
  {
    hide Reduce;
  }

  lemma LaunchedHoldsBack(b: Batch)
    ensures HoldsBack(b, b.(launched := true, calls := Launched(b.calls)))
  {
  }

  lemma LaunchHoldsBack(s: State, b: Batch)
    requires s.stage == Tools(b)
    ensures Launch(s, b).stage.Tools? && HoldsBack(b, Launch(s, b).stage.batch)
  {
    hide HoldsBack, Launched;
    LaunchedHoldsBack(b);
    HoldsBackSame(b);
  }

  /** The batch is left only when all its calls have ended. */
  lemma EndHoldsBack(s: State, b: Batch)
    requires s.stage == Tools(b) && BatchOk(b, s.aborted) && (b.launched || NoFurtherCall(s, b))
    ensures if EndBatch(s, b).stage.Tools? then HoldsBack(b, EndBatch(s, b).stage.batch) else Left(b)
  {
    hide Executions, ResultsOf;
  }

  lemma GoHoldsBack(s: State, b: Batch)
    requires Sound(s) && s.aborted && s.stage == Tools(b)
    ensures b.reply.Assistant?
    ensures if BatchStep(s, b).stage.Tools? then HoldsBack(b, BatchStep(s, b).stage.batch) else Left(b)
  {
    hide Sound, ResultsDue, HoldsBack, Left, BatchOk, DeliverResult, SetCall, StartCall, Launch, EndBatch;
    BatchFacts(s, b);
    if b.open || ResultsDue(b) {
      DeliverHoldsBack(s, b);
    } else if ExecutionDue(b) {
      ExecuteHoldsBack(s, b);
      assert SetCall(s, b, |b.calls| - 1, Busy).stage.Tools? by { SetCallStays(s, b, |b.calls| - 1, Busy); }
    } else if !b.launched && !NoFurtherCall(s, b) {
      StartHoldsBack(s, b);
    } else if b.style == Parallel && !b.launched {
      LaunchHoldsBack(s, b);
    } else {
      EndHoldsBack(s, b);
    }
  }

  lemma SetCallStays(s: State, b: Batch, k: nat, c: Call)
    requires k < |b.calls|
    ensures SetCall(s, b, k, c).stage.Tools?
  {
  }

  /** A call that is not prepared is refused or settled. */
  lemma SetHoldsBack(b: Batch, k: nat, c: Call)
    requires k < |b.calls| && !b.calls[k].Prepared? && !c.Prepared? && !c.Busy?
    ensures HoldsBack(b, b.(calls := b.calls[k := c]))
  {
  }

  lemma InputHoldsBack(s: State, b: Batch, i: Input)
    requires s.aborted && s.stage == Tools(b) && b.reply.Assistant? && !i.Go?
    ensures ToolInput(s, b, i).stage.Tools? && HoldsBack(b, ToolInput(s, b, i).stage.batch)
  {
    hide Reduce, BatchStep, HoldsBack;
    var n := |b.calls|;
    HoldsBackSame(b);
    match i {
      case Refuse(outcome) =>
        if n > 0 && b.calls[n - 1].Preparing? { SetHoldsBack(b, n - 1, Settled(outcome.(terminate := false))); }
      case Accept =>
        if n > 0 && b.calls[n - 1].Preparing? { SetHoldsBack(b, n - 1, Settled(REFUSED_BY_ABORT)); }
      case Settle(k, outcome) =>
        if k < n && b.calls[k].Busy? { SetHoldsBack(b, k, Settled(outcome)); }
      case Report(k) =>
        if k < n <= |b.reply.calls| && b.calls[k].Settled? { SetHoldsBack(b, k, Reported(b.calls[k].outcome)); }
      case _ =>
    }
  }

  lemma OtherInput(s: State, b: Batch, i: Input)
    requires s.stage == Tools(b) && b.reply.Assistant? && !i.Go?
    ensures Step(s, i) == ToolInput(s, b, i)
            || (Step(s, i).stage == s.stage && (s.aborted ==> Step(s, i).aborted))
  {
    hide React, ToolInput, Reduce, Dispatch, Begin, Continue;
    ReactIsToolInput(s, b, i);
  }

  lemma ReactIsToolInput(s: State, b: Batch, i: Input)
    requires s.stage == Tools(b) && b.reply.Assistant?
    ensures React(s, i) == ToolInput(s, b, i)
  {
    hide ToolInput;
  }

  lemma GoIsBatchStep(s: State, b: Batch)
    requires s.stage == Tools(b) && b.reply.Assistant?
    ensures Step(s, Go) == BatchStep(s, b)
  {
    hide BatchStep;
  }

  lemma HoldsBackSame(b: Batch)
    ensures HoldsBack(b, b)
  {
  }

  /** Every step after an abort holds the batch back, or leaves it with all its calls ended. */
  lemma StepHoldsBack(s: State, i: Input)
    requires Sound(s) && s.aborted && s.stage.Tools?
    ensures var b, t := s.stage.batch, Step(s, i);
            if t.stage.Tools? then HoldsBack(b, t.stage.batch) else Left(b)
  {
    hide Sound, BatchStep, ToolInput, Step, HoldsBack, Left, BatchOk;
    var b := s.stage.batch;
    BatchFacts(s, b);
    if i.Go? {
      GoHoldsBack(s, b);
      GoIsBatchStep(s, b);
    } else {
      HoldsBackSame(b);
      OtherInput(s, b, i);
      InputHoldsBack(s, b, i);
    }
  }

  lemma BatchStepAborted(s: State, b: Batch)
    requires s.aborted && s.stage == Tools(b) && b.reply.Assistant?
    ensures BatchStep(s, b).aborted
  {
    hide Reduce, ResultsOf, Executions, Launched, Reportable, ResultsDue, AllTerminate;
  }

  lemma ToolInputAborted(s: State, b: Batch, i: Input)
    requires s.aborted && s.stage == Tools(b) && b.reply.Assistant? && !i.Go?
    ensures ToolInput(s, b, i).aborted
  {
    hide Reduce, BatchStep;
  }

  lemma StaysAborted(s: State, i: Input)
    requires s.aborted && s.stage.Tools? && s.stage.batch.reply.Assistant?
    ensures Step(s, i).aborted
  {
    hide Step, BatchStep, ToolInput;
    var b := s.stage.batch;
    if i.Go? {
      GoIsBatchStep(s, b);
      BatchStepAborted(s, b);
    } else {
      OtherInput(s, b, i);
      ToolInputAborted(s, b, i);
    }
  }

  // Until the batch is over.

  predicate BusyAt(s: State, k: nat) {
    s.stage.Tools? && k < |s.stage.batch.calls| && s.stage.batch.calls[k].Busy?
  }

  predicate PreparedAt(s: State, k: nat) {
    s.stage.Tools? && k < |s.stage.batch.calls| && s.stage.batch.calls[k].Prepared?
  }

  /** The batch under way goes on through all the inputs. */
  ghost predicate GoesOn(s: State, inputs: seq<Input>) {
    forall j :: 0 <= j <= |inputs| ==> AgentLoop.Run(s, inputs[..j]).stage.Tools?
  }

  /** The last of the inputs ends the batch under way. */
  ghost predicate Ends(s: State, inputs: seq<Input>) {
    && inputs != [] && GoesOn(s, inputs[..|inputs| - 1])
    && !AgentLoop.Run(s, inputs).stage.Tools?
  }

  /** At one of the inputs the call begins to execute. */
  ghost predicate Begins(s: State, inputs: seq<Input>, k: nat) {
    exists j :: 0 <= j < |inputs| && BeginsAt(s, inputs, k, j)
  }

  predicate BeginsAt(s: State, inputs: seq<Input>, k: nat, j: nat)
    requires j < |inputs|
  {
    !BusyAt(AgentLoop.Run(s, inputs[..j]), k) && BusyAt(AgentLoop.Run(s, inputs[..j + 1]), k)
  }

  lemma RunPush(s: State, inputs: seq<Input>, i: Input)
    ensures AgentLoop.Run(s, inputs + [i]) == Step(AgentLoop.Run(s, inputs), i)
  {
    hide Step;
    assert (inputs + [i])[..|inputs|] == inputs;
  }

  lemma BeginsPush(s: State, inputs: seq<Input>, i: Input, k: nat)
    ensures var before, after := AgentLoop.Run(s, inputs), AgentLoop.Run(s, inputs + [i]);
            Begins(s, inputs + [i], k) <==> Begins(s, inputs, k) || (!BusyAt(before, k) && BusyAt(after, k))
  {
    hide AgentLoop.Run, BusyAt;
    var longer := inputs + [i];
    assert longer[..|inputs|] == inputs && longer[..|inputs| + 1] == longer;
    forall j | 0 <= j < |inputs| ensures BeginsAt(s, longer, k, j) == BeginsAt(s, inputs, k, j) {
      assert longer[..j] == inputs[..j] && longer[..j + 1] == inputs[..j + 1];
    }
    assert BeginsAt(s, longer, k, |inputs|)
        == (!BusyAt(AgentLoop.Run(s, inputs), k) && BusyAt(AgentLoop.Run(s, longer), k));
  }

  /** What the inputs so far have done to call `k`, compared with the moment of the abort. */
  ghost predicate Followed(s: State, inputs: seq<Input>, k: nat) {
    var t := AgentLoop.Run(s, inputs);
    && (PreparedAt(t, k) || Begins(s, inputs, k) ==> PreparedAt(s, k))
    && (PreparedAt(s, k) ==> PreparedAt(t, k) || Begins(s, inputs, k))
  }

  ghost predicate Compared(s: State, t: State)
    requires s.stage.Tools?
  {
    && Sound(t) && t.aborted && t.stage.Tools?
    && t.stage.batch.reply == s.stage.batch.reply && t.stage.batch.style == s.stage.batch.style
    && |s.stage.batch.calls| <= |t.stage.batch.calls|
    && (s.stage.batch.style != Truncated ==> |t.stage.batch.calls| <= Max(1, |s.stage.batch.calls|))
  }

  lemma StepCompared(s: State, t: State, i: Input)
    requires s.stage.Tools? && Compared(s, t) && Step(t, i).stage.Tools?
    ensures Compared(s, Step(t, i))
  {
    hide Sound, Step, BatchOk;
    StepSound(t, i);
    BatchFacts(t, t.stage.batch);
    StaysAborted(t, i);
    StepHoldsBack(t, i);
  }

  /** One step of call `k`. */
  lemma StepFollowed(t: State, i: Input, k: nat)
    requires Sound(t) && t.aborted && t.stage.Tools?
    ensures var u := Step(t, i);
            && (!BusyAt(t, k) && BusyAt(u, k) ==> PreparedAt(t, k))
            && (PreparedAt(u, k) ==> PreparedAt(t, k))
            && (PreparedAt(t, k) ==> PreparedAt(u, k) || BusyAt(u, k))
  {
    hide Sound, Step;
    StepHoldsBack(t, i);
  }

  lemma {:induction false} WhileItGoesOn(s: State, inputs: seq<Input>, k: nat)
    requires Sound(s) && s.aborted && GoesOn(s, inputs)
    ensures s.stage.Tools? && Compared(s, AgentLoop.Run(s, inputs)) && Followed(s, inputs, k)
  {
    assert AgentLoop.Run(s, inputs[..0]) == s;
    assert inputs[..|inputs|] == inputs;
    if inputs == [] {
      NothingBegins(s, k);
    } else {
      hide Sound, AgentLoop.Run, Step, Compared, PreparedAt, BusyAt, Begins;
      var front, i := inputs[..|inputs| - 1], inputs[|inputs| - 1];
      assert inputs == front + [i];
      FrontGoesOn(s, inputs);
      WhileItGoesOn(s, front, k);
      RunPush(s, front, i);
      BeginsPush(s, front, i, k);
      var t := AgentLoop.Run(s, front);
      ComparedIs(s, t);
      StepCompared(s, t, i);
      StepFollowed(t, i, k);
      PreparedIsNotBusy(t, k);
    }
  }

  lemma ComparedIs(s: State, t: State)
    requires s.stage.Tools? && Compared(s, t)
    ensures Sound(t) && t.aborted && t.stage.Tools?
  {
    hide Sound;
  }

  lemma PreparedIsNotBusy(t: State, k: nat)
    ensures PreparedAt(t, k) ==> !BusyAt(t, k)
  {
  }

  lemma FrontGoesOn(s: State, inputs: seq<Input>)
    requires inputs != [] && GoesOn(s, inputs)
    ensures GoesOn(s, inputs[..|inputs| - 1])
  {
    hide AgentLoop.Run;
    var front := inputs[..|inputs| - 1];
    forall j | 0 <= j <= |front| ensures AgentLoop.Run(s, front[..j]).stage.Tools? {
      assert front[..j] == inputs[..j];
    }
  }

  lemma NothingBegins(s: State, k: nat)
    requires Sound(s) && s.aborted && s.stage.Tools?
    ensures Compared(s, s) && Followed(s, [], k)
  {
    hide Sound;
  }

  /** From an abort to the end of the batch, whatever happens in between: the calls that begin to execute
      are exactly those that were prepared when the abort came. */
  lemma ExactlyThePreparedBegin(s: State, inputs: seq<Input>, k: nat)
    requires Sound(s) && s.aborted && s.stage.Tools? && Ends(s, inputs)
    ensures Begins(s, inputs, k) <==> PreparedAt(s, k)
  {
    hide Sound, AgentLoop.Run, Step, Compared, Begins, GoesOn;
    var front, i := inputs[..|inputs| - 1], inputs[|inputs| - 1];
    assert inputs == front + [i];
    WhileItGoesOn(s, front, k);
    RunPush(s, front, i);
    BeginsPush(s, front, i, k);
    var t := AgentLoop.Run(s, front);
    ComparedIs(s, t);
    StepFollowed(t, i, k);
  }

  /** The calls of the batch that are started in all: those started before the abort, or the first one if
      there was none, or every call of a cut-off reply. */
  lemma CallsStarted(s: State, inputs: seq<Input>)
    requires Sound(s) && s.aborted && s.stage.Tools? && Ends(s, inputs)
    ensures var b, t := s.stage.batch, AgentLoop.Run(s, inputs[..|inputs| - 1]);
            && b.reply.Assistant? && t.stage.Tools?
            && |t.stage.batch.calls| == if b.style == Truncated then |b.reply.calls| else Max(1, |b.calls|)
  {
    hide Sound, AgentLoop.Run, Step, Begins, GoesOn, Followed;
    var front, i := inputs[..|inputs| - 1], inputs[|inputs| - 1];
    assert inputs == front + [i];
    WhileItGoesOn(s, front, 0);
    RunPush(s, front, i);
    BatchFacts(s, s.stage.batch);
    StepHoldsBack(AgentLoop.Run(s, front), i);
  }

  /** For every run: from an abort that comes in a tool batch to the end of the batch, exactly the calls
      prepared when it came begin to execute; so none does if and only if none was prepared. */
  lemma AbortedBatches(messages: seq<Message>, m: Mode, n: Mode, before: seq<Input>, after: seq<Input>)
    requires AgentLoop.Run(Start(messages, m, n), before).stage.Tools?
    requires Ends(Step(AgentLoop.Run(Start(messages, m, n), before), Abort), after)
    ensures var t := AgentLoop.Run(Start(messages, m, n), before);
            var s := Step(t, Abort);
            && (forall k: nat :: Begins(s, after, k) <==> PreparedAt(t, k))
            && ((forall k: nat :: !Begins(s, after, k)) <==> (forall k: nat :: !PreparedAt(t, k)))
  {
    hide Sound, AgentLoop.Run, Step, Begins, Ends, PreparedAt, Start, Follow;
    var t := AgentLoop.Run(Start(messages, m, n), before);
    var s := Step(t, Abort);
    EveryRunIsWellFormed(messages, m, n, before);
    StepSound(t, Abort);
    AbortKeepsBatch(t);
    forall k: nat ensures Begins(s, after, k) <==> PreparedAt(t, k) {
      ExactlyThePreparedBegin(s, after, k);
      SamePrepared(s, t, k);
    }
  }

  lemma AbortKeepsBatch(t: State)
    requires t.stage.Tools?
    ensures Step(t, Abort).stage == t.stage && Step(t, Abort).aborted
  {
    hide Reduce;
  }

  lemma SamePrepared(s: State, t: State, k: nat)
    requires s.stage == t.stage
    ensures PreparedAt(s, k) == PreparedAt(t, k)
  {
  }

  // Runs in which something begins after an abort.

  const OPENING: seq<Input> := [StartContinue, Go, Go, Go, Go, Go, Go]

  function Opened(): State {
    AgentLoop.Run(Start([User("hi", Prompted)], All, All), OPENING)
  }

  predicate Quiet(s: State, stage: Stage) {
    && s.stage == stage && !s.aborted && s.prompts == [] && s.pending == [] && !s.skipPoll && s.hasMore
    && s.steering.items == []
  }

  lemma Continues(s: State)
    requires s.stage == Idle && s.agent.messages == [User("hi", Prompted)] && s.steering.items == []
    ensures Quiet(Step(s, StartContinue), Starting) && Step(s, StartContinue).firstTurn
  {
  }

  lemma GoesToPoll(s: State)
    requires (Quiet(s, Starting) || Quiet(s, FirstTurn) || Quiet(s, PromptStart(0))) && s.firstTurn
    ensures Step(s, Go).firstTurn
    ensures Quiet(Step(s, Go), if s.stage.Starting? then FirstTurn
                               else if s.stage.FirstTurn? then PromptStart(0) else FirstPoll)
  {
    hide Reduce;
  }

  lemma GoesToLoop(s: State)
    requires Quiet(s, FirstPoll) && s.firstTurn
    ensures Quiet(Step(s, Go), LoopHead) && Step(s, Go).firstTurn
  {
  }

  lemma GoesToRequest(s: State)
    requires (Quiet(s, LoopHead) && s.firstTurn) || Quiet(s, InjectStart(0))
    ensures Quiet(Step(s, Go), if s.stage.LoopHead? then InjectStart(0) else Request(None))
  {
    hide Reduce;
  }

  lemma ToRequest()
    ensures Opened().stage == Request(None) && !Opened().aborted
  {
    var s0 := Start([User("hi", Prompted)], All, All);
    assert s0.stage == Idle && s0.agent.messages == [User("hi", Prompted)] && s0.steering.items == [];
    hide Step, AgentLoop.Run, Start;
    var s1 := Step(s0, StartContinue);
    Continues(s0);
    GoesToPoll(s1);
    GoesToPoll(Step(s1, Go));
    GoesToPoll(Step(Step(s1, Go), Go));
    var s4 := Step(Step(Step(s1, Go), Go), Go);
    GoesToLoop(s4);
    GoesToRequest(Step(s4, Go));
    GoesToRequest(Step(Step(s4, Go), Go));
    Seven(s0, StartContinue, Go, Go, Go, Go, Go, Go);
  }

  lemma RunThree(s: State, a: Input, b: Input, c: Input)
    ensures AgentLoop.Run(s, [a, b, c]) == Step(Step(Step(s, a), b), c)
    ensures AgentLoop.Run(s, [a, b]) == Step(Step(s, a), b)
    ensures AgentLoop.Run(s, [a]) == Step(s, a)
  {
    hide Step;
    RunPush(s, [], a);
    RunPush(s, [a], b);
    RunPush(s, [a, b], c);
    assert [] + [a] == [a] && [a] + [b] == [a, b] && [a, b] + [c] == [a, b, c];
  }

  lemma Seven(s: State, a: Input, b: Input, c: Input, d: Input, e: Input, f: Input, g: Input)
    ensures AgentLoop.Run(s, [a, b, c, d, e, f, g])
         == Step(Step(Step(Step(Step(Step(Step(s, a), b), c), d), e), f), g)
  {
    hide Step;
    RunThree(s, a, b, c);
    RunPush(s, [a, b, c], d);
    RunPush(s, [a, b, c, d], e);
    RunPush(s, [a, b, c, d, e], f);
    RunPush(s, [a, b, c, d, e, f], g);
    assert [a, b, c] + [d] == [a, b, c, d] && [a, b, c, d] + [e] == [a, b, c, d, e];
    assert [a, b, c, d, e] + [f] == [a, b, c, d, e, f] && [a, b, c, d, e, f] + [g] == [a, b, c, d, e, f, g];
  }

  lemma {:induction false} RunAppend(s: State, a: seq<Input>, b: seq<Input>)
    ensures AgentLoop.Run(s, a + b) == AgentLoop.Run(AgentLoop.Run(s, a), b)
  {
    hide Step;
    if b == [] {
      assert a + b == a;
    } else {
      var front, i := b[..|b| - 1], b[|b| - 1];
      assert a + b == (a + front) + [i] && b == front + [i];
      RunAppend(s, a, front);
      RunPush(s, a + front, i);
      RunPush(AgentLoop.Run(s, a), front, i);
    }
  }

  /** A reply of two calls in a parallel batch; the first is prepared, the second is being prepared. */
  function TwoCalls(reply: Message): seq<Input> {
    [StreamDone(reply), Go, Go, Execute(true), Go, Accept, Go]
  }

  predicate Replying(reply: Message) {
    reply.Assistant? && reply.stop == ToolUse && |reply.calls| == 2
  }

  predicate Calling(s: State, reply: Message, calls: seq<Call>) {
    !s.aborted && s.stage == Tools(Batch(reply, Parallel, calls, false, 0, false))
  }

  lemma Replies(s: State, reply: Message)
    requires s.stage == Request(None) && !s.aborted && Replying(reply)
    ensures Step(s, StreamDone(reply)).stage == ReplyStart(reply) && !Step(s, StreamDone(reply)).aborted
  {
  }

  lemma ReplyGoes(s: State, reply: Message)
    requires (s.stage == ReplyStart(reply) || s.stage == ReplyEnd(reply)) && !s.aborted
    ensures Step(s, Go).stage == if s.stage.ReplyStart? then ReplyEnd(reply) else ReplyDone(reply)
    ensures !Step(s, Go).aborted
  {
    hide Reduce;
  }

  lemma ReplyCalls(s: State, reply: Message)
    requires s.stage == ReplyDone(reply) && !s.aborted && Replying(reply)
    ensures Calling(Step(s, Execute(true)), reply, [])
  {
  }

  lemma CallStarts(s: State, reply: Message, calls: seq<Call>)
    requires Replying(reply) && Calling(s, reply, calls) && (calls == [] || calls == [Prepared])
    ensures Calling(Step(s, Go), reply, calls + [Preparing])
  {
    hide Reduce;
  }

  lemma CallIsPrepared(s: State, reply: Message)
    requires Replying(reply) && Calling(s, reply, [Preparing])
    ensures Calling(Step(s, Accept), reply, [Prepared])
  {
    hide BatchStep;
  }

  lemma ToTwoCalls(s: State, reply: Message)
    requires s.stage == Request(None) && !s.aborted && Replying(reply)
    ensures Calling(AgentLoop.Run(s, TwoCalls(reply)), reply, [Prepared, Preparing])
  {
    hide Step, AgentLoop.Run, Calling;
    var s1 := Step(s, StreamDone(reply));
    Replies(s, reply);
    ReplyGoes(s1, reply);
    ReplyGoes(Step(s1, Go), reply);
    var s3 := Step(Step(s1, Go), Go);
    ReplyCalls(s3, reply);
    var s4 := Step(s3, Execute(true));
    var none: seq<Call> := [];
    assert none + [Preparing] == [Preparing] && [Prepared] + [Preparing] == [Prepared, Preparing];
    CallStarts(s4, reply, none);
    CallIsPrepared(Step(s4, Go), reply);
    CallStarts(Step(Step(s4, Go), Accept), reply, [Prepared]);
    Seven(s, StreamDone(reply), Go, Go, Execute(true), Go, Accept, Go);
  }

  lemma SecondIsRefused(s: State, reply: Message)
    requires s.stage == Tools(Batch(reply, Parallel, [Prepared, Preparing], false, 0, false))
    requires s.aborted && Replying(reply)
    ensures Step(s, Accept).stage
         == Tools(Batch(reply, Parallel, [Prepared, Settled(REFUSED_BY_ABORT)], false, 0, false))
  {
    hide BatchStep;
  }

  lemma SecondIsReported(s: State, reply: Message)
    requires s.stage == Tools(Batch(reply, Parallel, [Prepared, Settled(REFUSED_BY_ABORT)], false, 0, false))
    requires Replying(reply)
    ensures Step(s, Report(1)).stage
         == Tools(Batch(reply, Parallel, [Prepared, Reported(REFUSED_BY_ABORT)], false, 0, false))
  {
    hide BatchStep, Reduce;
  }

  lemma FirstIsLaunched(s: State, reply: Message)
    requires s.stage == Tools(Batch(reply, Parallel, [Prepared, Reported(REFUSED_BY_ABORT)], false, 0, false))
    requires Replying(reply)
    ensures BusyAt(Step(s, Go), 0)
  {
    var b := s.stage.batch;
    assert !b.calls[0].Reported? && !ResultsDue(b);
    hide DeliverResult, StartCall, EndBatch, SetCall;
  }

  lemma AfterTheAbort(s: State, reply: Message)
    requires s.stage == Tools(Batch(reply, Parallel, [Prepared, Preparing], false, 0, false))
    requires s.aborted && Replying(reply)
    ensures Begins(s, [Accept, Report(1), Go], 0)
  {
    hide Step, AgentLoop.Run;
    SecondIsRefused(s, reply);
    SecondIsReported(Step(s, Accept), reply);
    FirstIsLaunched(Step(Step(s, Accept), Report(1)), reply);
    var inputs := [Accept, Report(1), Go];
    RunThree(s, Accept, Report(1), Go);
    assert inputs[..2] == [Accept, Report(1)] && inputs[..2 + 1] == inputs;
    assert BeginsAt(s, inputs, 0, 2);
  }

  /** Such a run, from a fresh agent: a parallel batch of two calls, the abort comes while the second one
      is being prepared, and the first one begins to execute three steps later. */
  lemma PreparedCallRunsAfterAbort(reply: Message)
    requires Replying(reply)
    ensures var s := AgentLoop.Run(Start([User("hi", Prompted)], All, All), OPENING + TwoCalls(reply) + [Abort]);
            s.aborted && s.stage.Tools? && Begins(s, [Accept, Report(1), Go], 0)
  {
    hide AgentLoop.Run, Step, Begins, Start;
    var start := Start([User("hi", Prompted)], All, All);
    ToRequest();
    ToTwoCalls(Opened(), reply);
    RunAppend(start, OPENING, TwoCalls(reply));
    var t := AgentLoop.Run(start, OPENING + TwoCalls(reply));
    RunPush(start, OPENING + TwoCalls(reply), Abort);
    AbortKeepsBatch(t);
    AfterTheAbort(Step(t, Abort), reply);
  }

  /** The first call of a batch is started even after an abort. */
  lemma FirstCallStartsAfterAbort(s: State, b: Batch)
    requires Sound(s) && s.stage == Tools(b) && b.calls == []
    ensures b.reply.Assistant? && b.reply.calls != []
    ensures var t := Step(s, Go);
            && t.trace == s.trace + [ToolStart(0, b.reply.calls[0].id)]
            && t.stage.Tools? && |t.stage.batch.calls| == 1
  {
    BatchFacts(s, b);
    GoIsBatchStep(s, b);
    hide Sound, Step, Reduce;
  }
}
