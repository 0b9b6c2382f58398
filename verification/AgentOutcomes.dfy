/** Where what a run reports comes from: outcomes from the tools, replies from the model, user messages from
    the user. */
module AgentOutcomes {
  import opened AgentAborts
  import opened AgentEvents
  import opened AgentLoop
  import opened AgentSafety
  import opened Text

  // One step.

  predicate Ended(c: Call) {
    c.Settled? || c.Reported?
  }

  function CallsOf(s: State): seq<Call> {
    if s.stage.Tools? then s.stage.batch.calls else []
  }

  /** The input settles call `k` with that outcome: its tool has returned it; or the call was refused before it
      was executed, by its preparation, by the abort signal, or because the reply was cut off. */
  predicate SettlesIn(b: Batch, aborted: bool, i: Input, k: nat, o: Outcome) {
    || (i == Settle(k, o) && k < |b.calls| && b.calls[k] == Busy)
    || (i.Refuse? && |b.calls| == k + 1 && b.calls[k] == Preparing
        && o == Outcome(i.outcome.text, i.outcome.isError, false))
    || (i == Accept && aborted && |b.calls| == k + 1 && b.calls[k] == Preparing
        && o == Outcome("Operation aborted", true, false))
    || (i == Go && b.style == Truncated && |b.calls| == k && o == Outcome("Response truncated", true, false))
  }

  predicate Settles(s: State, i: Input, k: nat, o: Outcome) {
    s.stage.Tools? && SettlesIn(s.stage.batch, s.aborted, i, k, o)
  }

  predicate SameBatch(s: State, t: State) {
    && s.stage.Tools? && t.stage.Tools?
    && s.stage.batch.reply == t.stage.batch.reply && s.stage.batch.style == t.stage.batch.style
  }

  /** What one input does to call `k` of a batch. */
  ghost predicate Changes(b: Batch, aborted: bool, i: Input, calls: seq<Call>, k: nat) {
    && |b.calls| <= |calls|
    && (k < |b.calls| && Ended(b.calls[k]) ==> Ended(calls[k]) && calls[k].outcome == b.calls[k].outcome)
    && (k < |calls| && Ended(calls[k]) ==>
          (k < |b.calls| && Ended(b.calls[k])) || SettlesIn(b, aborted, i, k, calls[k].outcome))
    && (k < |b.calls| && b.calls[k] == Busy ==> calls[k] == Busy || Ended(calls[k]))
  }

  ghost predicate CallStep(s: State, i: Input, t: State, k: nat) {
    SameBatch(s, t) && Changes(s.stage.batch, s.aborted, i, t.stage.batch.calls, k)
  }

  lemma NoChange(b: Batch, aborted: bool, i: Input, k: nat)
    ensures Changes(b, aborted, i, b.calls, k)
  {
  }

  lemma LaunchChanges(b: Batch, aborted: bool, i: Input, k: nat)
    ensures Changes(b, aborted, i, Launched(b.calls), k)
  {
  }

  lemma SetChanges(b: Batch, aborted: bool, i: Input, n: nat, c: Call, k: nat)
    requires n < |b.calls|
    requires if Ended(b.calls[n]) then Ended(c) && c.outcome == b.calls[n].outcome
             else if Ended(c) then SettlesIn(b, aborted, i, n, c.outcome) else c == Busy || b.calls[n] != Busy
    ensures Changes(b, aborted, i, b.calls[n := c], k)
  {
  }

  lemma StartChanges(b: Batch, aborted: bool, k: nat)
    ensures var first := if b.style == Truncated then Settled(REFUSED_BY_LENGTH) else Preparing;
            Changes(b, aborted, Go, b.calls + [first], k)
  {
  }

  /** The batch a step leads to, if it leads to one. */
  predicate LeadsTo(t: State, b: Batch, calls: seq<Call>) {
    && t.stage.Tools? && t.stage.batch.reply == b.reply && t.stage.batch.style == b.style
    && t.stage.batch.calls == calls
  }

  lemma DeliverLeads(s: State, b: Batch)
    requires s.stage == Tools(b) && b.reply.Assistant?
    ensures LeadsTo(DeliverResult(s, b), b, b.calls)
  {
    hide Reduce;
  }

  lemma StartLeads(s: State, b: Batch)
    requires s.stage == Tools(b) && b.reply.Assistant? && |b.calls| < |b.reply.calls|
    ensures var first := if b.style == Truncated then Settled(REFUSED_BY_LENGTH) else Preparing;
            LeadsTo(StartCall(s, b), b, b.calls) || LeadsTo(StartCall(s, b), b, b.calls + [first])
  {
    hide Reduce;
  }

  lemma LaunchLeads(s: State, b: Batch)
    requires s.stage == Tools(b)
    ensures LeadsTo(Launch(s, b), b, b.calls) || LeadsTo(Launch(s, b), b, Launched(b.calls))
  {
    hide Launched;
  }

  lemma SetLeads(s: State, b: Batch, n: nat, c: Call)
    requires s.stage == Tools(b) && n < |b.calls|
    ensures LeadsTo(SetCall(s, b, n, c), b, b.calls[n := c])
  {
  }

  lemma EndLeads(s: State, b: Batch)
    requires s.stage == Tools(b) && b.reply.Assistant?
    ensures EndBatch(s, b).stage.Tools? ==> LeadsTo(EndBatch(s, b), b, b.calls)
  {
    hide Executions, ResultsOf, Reportable, AllTerminate;
  }

  lemma EventLeads(s: State, b: Batch, i: Input)
    requires s.stage == Tools(b) && b.reply.Assistant? && (i.Progressed? || i.Report?)
    ensures var t := ToolInput(s, b, i);
            if i.Report? && i.position < |b.calls| <= |b.reply.calls| && b.calls[i.position].Settled?
            then LeadsTo(t, b, b.calls[i.position := Reported(b.calls[i.position].outcome)])
            else LeadsTo(t, b, b.calls)
  {
    hide Reduce, BatchStep;
  }

  lemma IsCallStep(s: State, b: Batch, i: Input, t: State, calls: seq<Call>, k: nat)
    requires s.stage == Tools(b) && LeadsTo(t, b, calls) && Changes(b, s.aborted, i, calls, k)
    ensures CallStep(s, i, t, k)
  {
    hide Changes;
  }

  lemma GoCallStep(s: State, b: Batch, k: nat)
    requires s.stage == Tools(b) && b.reply.Assistant?
    ensures BatchStep(s, b).stage.Tools? ==> CallStep(s, Go, BatchStep(s, b), k)
  {
    hide ResultsDue, DeliverResult, SetCall, StartCall, Launch, EndBatch, CallStep, Changes, LeadsTo, Launched;
    NoChange(b, s.aborted, Go, k);
    var t := BatchStep(s, b);
    if b.open || ResultsDue(b) {
      DeliverLeads(s, b);
      IsCallStep(s, b, Go, t, b.calls, k);
    } else if ExecutionDue(b) {
      SetLeads(s, b, |b.calls| - 1, Busy);
      SetChanges(b, s.aborted, Go, |b.calls| - 1, Busy, k);
      IsCallStep(s, b, Go, t, b.calls[|b.calls| - 1 := Busy], k);
    } else if !b.launched && !NoFurtherCall(s, b) {
      var first := if b.style == Truncated then Settled(REFUSED_BY_LENGTH) else Preparing;
      StartLeads(s, b);
      StartChanges(b, s.aborted, k);
      IsCallStep(s, b, Go, t, if LeadsTo(t, b, b.calls) then b.calls else b.calls + [first], k);
    } else if b.style == Parallel && !b.launched {
      LaunchLeads(s, b);
      LaunchChanges(b, s.aborted, Go, k);
      IsCallStep(s, b, Go, t, if LeadsTo(t, b, b.calls) then b.calls else Launched(b.calls), k);
    } else {
      EndLeads(s, b);
      if t.stage.Tools? { IsCallStep(s, b, Go, t, b.calls, k); }
    }
  }

  /** The call an input changes, and how. */
  function Decided(s: State, b: Batch, i: Input): Option<(nat, Call)> {
    var n := |b.calls|;
    match i
    case Refuse(outcome) =>
      if n > 0 && b.calls[n - 1].Preparing? then Some((n - 1, Settled(outcome.(terminate := false)))) else None
    case Accept =>
      if n > 0 && b.calls[n - 1].Preparing?
      then Some((n - 1, if s.aborted then Settled(REFUSED_BY_ABORT) else Prepared)) else None
    case Settle(j, outcome) => if j < n && b.calls[j].Busy? then Some((j, Settled(outcome))) else None
    case _ => None
  }

  lemma DecidedInput(s: State, b: Batch, i: Input)
    requires s.stage == Tools(b) && b.reply.Assistant? && !i.Go? && !i.Progressed? && !i.Report?
    ensures match Decided(s, b, i)
            case None => ToolInput(s, b, i) == s
            case Some((n, c)) => n < |b.calls| && ToolInput(s, b, i) == SetCall(s, b, n, c)
  {
    hide BatchStep, SetCall;
  }

  lemma DecidedChanges(s: State, b: Batch, i: Input, k: nat)
    requires Decided(s, b, i).Some?
    ensures var (n, c) := Decided(s, b, i).value; n < |b.calls| && Changes(b, s.aborted, i, b.calls[n := c], k)
  {
    var (n, c) := Decided(s, b, i).value;
    SetChanges(b, s.aborted, i, n, c, k);
  }

  lemma InputCallStep(s: State, b: Batch, i: Input, k: nat)
    requires s.stage == Tools(b) && b.reply.Assistant? && !i.Go?
    ensures CallStep(s, i, ToolInput(s, b, i), k)
  {
    hide ToolInput, SetCall, CallStep, Changes, Decided, LeadsTo;
    NoChange(b, s.aborted, i, k);
    if i.Progressed? || i.Report? {
      EventLeads(s, b, i);
      if i.Report? && i.position < |b.calls| <= |b.reply.calls| && b.calls[i.position].Settled? {
        var c := Reported(b.calls[i.position].outcome);
        SetChanges(b, s.aborted, i, i.position, c, k);
        IsCallStep(s, b, i, ToolInput(s, b, i), b.calls[i.position := c], k);
      } else {
        IsCallStep(s, b, i, ToolInput(s, b, i), b.calls, k);
      }
    } else {
      DecidedInput(s, b, i);
      match Decided(s, b, i) {
        case None =>
          SameStage(s, s);
          IsCallStep(s, b, i, s, b.calls, k);
        case Some((n, c)) =>
          DecidedChanges(s, b, i, k);
          SetLeads(s, b, n, c);
          IsCallStep(s, b, i, SetCall(s, b, n, c), b.calls[n := c], k);
      }
    }
  }

  lemma SameStage(s: State, t: State)
    requires s.stage.Tools? && t.stage == s.stage
    ensures LeadsTo(t, s.stage.batch, s.stage.batch.calls)
  {
  }

  /** Every step that stays in a batch. */
  lemma StepIsCallStep(s: State, i: Input, k: nat)
    requires Sound(s) && s.stage.Tools? && Step(s, i).stage.Tools?
    ensures CallStep(s, i, Step(s, i), k)
  {
    hide Sound, BatchStep, ToolInput, Step, BatchOk, CallStep, Changes, LeadsTo;
    var b := s.stage.batch;
    BatchFacts(s, b);
    if i.Go? {
      GoIsBatchStep(s, b);
      GoCallStep(s, b, k);
    } else {
      OtherInput(s, b, i);
      if Step(s, i) == ToolInput(s, b, i) {
        InputCallStep(s, b, i, k);
      } else {
        SameStage(s, Step(s, i));
        NoChange(b, s.aborted, i, k);
        IsCallStep(s, b, i, Step(s, i), b.calls, k);
      }
    }
  }

  /** What holds of the step, for the state reached. */
  lemma CallStepMeans(s: State, i: Input, t: State, k: nat)
    requires CallStep(s, i, t, k)
    ensures SameBatch(s, t) && |CallsOf(s)| <= |CallsOf(t)|
    ensures k < |CallsOf(s)| && Ended(CallsOf(s)[k]) ==>
              Ended(CallsOf(t)[k]) && CallsOf(t)[k].outcome == CallsOf(s)[k].outcome
    ensures k < |CallsOf(t)| && Ended(CallsOf(t)[k]) ==>
              (k < |CallsOf(s)| && Ended(CallsOf(s)[k])) || Settles(s, i, k, CallsOf(t)[k].outcome)
    ensures k < |CallsOf(s)| && CallsOf(s)[k] == Busy ==> CallsOf(t)[k] == Busy || Ended(CallsOf(t)[k])
  {
    hide SettlesIn;
  }

  /** A batch begins with no call. */
  /** Only the decision on a finished reply begins a batch. */
  lemma ExecuteBegins(s: State, i: Input)
    requires !s.stage.Tools? && Step(s, i).stage.Tools?
    ensures i.Execute? && s.stage.ReplyDone? && s.stage.reply.Assistant?
  {
    hide React, Continue, Begin, Dispatch, Emit, Queue.Add;
    if !i.Execute? {
      ReactsOutside(s, i);
      BeginsOutside(s);
      if i.StartPrompt? { BeginsWith(s, Prompts(i.texts), false); }
      EmitStays(s, AbortRequested);
      assert false;
    }
  }

  lemma BatchBeginsEmpty(s: State, i: Input)
    requires !s.stage.Tools? && Step(s, i).stage.Tools?
    ensures CallsOf(Step(s, i)) == [] && Step(s, i).stage.batch.results == 0 && !Step(s, i).stage.batch.open
  {
    hide Step, Dispatch, CallsOf;
    ExecuteBegins(s, i);
    DispatchEmpty(s, s.stage.reply, i.parallel);
    Dispatches(s, i.parallel);
  }

  lemma Dispatches(s: State, parallel: bool)
    requires s.stage.ReplyDone? && s.stage.reply.Assistant?
    ensures Step(s, Execute(parallel)) == Dispatch(s, s.stage.reply, parallel)
  {
    hide Dispatch;
  }

  lemma DispatchEmpty(s: State, reply: Message, parallel: bool)
    requires reply.Assistant?
    ensures var t := Dispatch(s, reply, parallel);
            CallsOf(t) == [] && (t.stage.Tools? ==> t.stage.batch.results == 0 && !t.stage.batch.open)
  {
  }

  lemma EmitStays(s: State, e: Event)
    ensures Emit(s, e).stage == s.stage
  {
  }

  lemma BeginsWith(s: State, prompts: seq<Message>, skip: bool)
    ensures Begin(s, prompts, skip).stage == Starting
  {
  }

  lemma BeginsOutside(s: State)
    requires !s.stage.Tools?
    ensures !Continue(s).stage.Tools?
  {
    hide Queue.Head, Queue.Rest;
  }

  lemma AdvancesOutside(s: State)
    requires !s.stage.Tools?
    ensures !Advance(s).stage.Tools?
  {
    hide Open, Drain, Inject, Close;
    OpensOutside(s);
    ClosesOutside(s);
  }

  lemma OpensOutside(s: State)
    requires !s.stage.Tools?
    ensures !Open(s).stage.Tools? && !Drain(s).stage.Tools?
  {
    hide Emit, Queue.Head, Queue.Rest;
  }

  lemma ClosesOutside(s: State)
    requires !s.stage.Tools?
    ensures !Inject(s).stage.Tools? && !Close(s).stage.Tools?
  {
    hide Emit, AllExecuted, ResultsOf;
  }

  lemma ReactsOutside(s: State, i: Input)
    requires !s.stage.Tools?
    ensures !React(s, i).stage.Tools?
  {
    hide Advance, Emit;
    AdvancesOutside(s);
  }

  // The inputs so far.

  /** The same batch is under way from after the first `i` inputs to after all of them. */
  ghost predicate InOneBatch(s: State, inputs: seq<Input>, i: nat) {
    && i <= |inputs|
    && forall j :: i <= j <= |inputs| ==> SameBatch(AgentLoop.Run(s, inputs[..j]), AgentLoop.Run(s, inputs))
  }

  lemma InOneBatchPush(s: State, inputs: seq<Input>, i: Input, k: nat)
    requires k <= |inputs|
    ensures InOneBatch(s, inputs + [i], k)
       <==> InOneBatch(s, inputs, k) && SameBatch(AgentLoop.Run(s, inputs), AgentLoop.Run(s, inputs + [i]))
  {
    hide AgentLoop.Run;
    var longer := inputs + [i];
    assert longer[..|longer|] == longer && longer[..|inputs|] == inputs && inputs[..|inputs|] == inputs;
    forall j | 0 <= j <= |inputs| ensures longer[..j] == inputs[..j] {
    }
  }

  lemma InOneBatchNow(s: State, inputs: seq<Input>)
    requires AgentLoop.Run(s, inputs).stage.Tools?
    ensures InOneBatch(s, inputs, |inputs|)
  {
    hide AgentLoop.Run;
    assert inputs[..|inputs|] == inputs;
  }

  lemma {:induction false} StaysSound(s: State, inputs: seq<Input>)
    requires Sound(s)
    ensures Sound(AgentLoop.Run(s, inputs))
  {
    hide Sound, Step;
    if inputs != [] {
      StaysSound(s, inputs[..|inputs| - 1]);
      StepSound(AgentLoop.Run(s, inputs[..|inputs| - 1]), inputs[|inputs| - 1]);
    }
  }

  lemma NothingRun(s: State)
    ensures AgentLoop.Run(s, []) == s
  {
  }

  /** In the batch under way the call has been executing. */
  ghost predicate HasRun(s: State, inputs: seq<Input>, k: nat) {
    exists j :: 0 <= j <= |inputs| && BusyAt(AgentLoop.Run(s, inputs[..j]), k) && InOneBatch(s, inputs, j)
  }

  lemma HasRunPush(s: State, inputs: seq<Input>, i: Input, k: nat)
    ensures HasRun(s, inputs + [i], k)
       <==> BusyAt(AgentLoop.Run(s, inputs + [i]), k)
            || (HasRun(s, inputs, k) && SameBatch(AgentLoop.Run(s, inputs), AgentLoop.Run(s, inputs + [i])))
  {
    hide AgentLoop.Run, InOneBatch, SameBatch;
    var longer := inputs + [i];
    assert longer[..|longer|] == longer;
    forall j | 0 <= j <= |inputs|
      ensures BusyAt(AgentLoop.Run(s, longer[..j]), k) == BusyAt(AgentLoop.Run(s, inputs[..j]), k)
      ensures InOneBatch(s, longer, j)
              == (InOneBatch(s, inputs, j) && SameBatch(AgentLoop.Run(s, inputs), AgentLoop.Run(s, longer)))
    {
      assert longer[..j] == inputs[..j];
      InOneBatchPush(s, inputs, i, j);
    }
    if BusyAt(AgentLoop.Run(s, longer), k) {
      InOneBatchNow(s, longer);
      assert BusyAt(AgentLoop.Run(s, longer[..|longer|]), k);
    }
    if HasRun(s, inputs, k) && SameBatch(AgentLoop.Run(s, inputs), AgentLoop.Run(s, longer)) {
      var j :| 0 <= j <= |inputs| && BusyAt(AgentLoop.Run(s, inputs[..j]), k) && InOneBatch(s, inputs, j);
      assert BusyAt(AgentLoop.Run(s, longer[..j]), k) && InOneBatch(s, longer, j);
    }
    if HasRun(s, longer, k) {
      var j :| 0 <= j <= |longer| && BusyAt(AgentLoop.Run(s, longer[..j]), k) && InOneBatch(s, longer, j);
      if j <= |inputs| {
        assert BusyAt(AgentLoop.Run(s, inputs[..j]), k) && InOneBatch(s, inputs, j);
      }
    }
  }

  /** A call that has been executing is executing still or has ended. */
  lemma {:induction false} OnceRunning(s: State, inputs: seq<Input>, k: nat)
    requires Sound(s) && !s.stage.Tools? && HasRun(s, inputs, k)
    ensures var calls := CallsOf(AgentLoop.Run(s, inputs)); k < |calls| && (calls[k] == Busy || Ended(calls[k]))
  {
    hide CallStep, Sound, Step, AgentLoop.Run, HasRun;
    if inputs == [] {
      NothingRun(s);
      NoneRuns(s, k);
    } else {
      var front, last := inputs[..|inputs| - 1], inputs[|inputs| - 1];
      assert inputs == front + [last];
      RunPush(s, front, last);
      HasRunPush(s, front, last, k);
      if !BusyAt(AgentLoop.Run(s, inputs), k) {
        OnceRunning(s, front, k);
        StaysSound(s, front);
        StepIsCallStep(AgentLoop.Run(s, front), last, k);
        CallStepMeans(AgentLoop.Run(s, front), last, AgentLoop.Run(s, inputs), k);
      }
    }
  }

  lemma NoneRuns(s: State, k: nat)
    requires !s.stage.Tools?
    ensures !HasRun(s, [], k)
  {
    var none: seq<Input> := [];
    assert none[..0] == [];
  }

  lemma RunsNow(s: State, inputs: seq<Input>, k: nat)
    requires BusyAt(AgentLoop.Run(s, inputs), k)
    ensures HasRun(s, inputs, k)
  {
    hide AgentLoop.Run;
    InOneBatchNow(s, inputs);
    assert inputs[..|inputs|] == inputs;
  }

  /** A call that has ended was settled by an input of the same batch, with the outcome it has; and by its tool
      if and only if it has been executing. */
  lemma {:induction false} OutcomeHasCause(s: State, inputs: seq<Input>, k: nat) returns (i: nat)
    requires Sound(s) && !s.stage.Tools?
    requires var calls := CallsOf(AgentLoop.Run(s, inputs)); k < |calls| && Ended(calls[k])
    ensures i < |inputs| && InOneBatch(s, inputs, i)
    ensures Settles(AgentLoop.Run(s, inputs[..i]), inputs[i], k, CallsOf(AgentLoop.Run(s, inputs))[k].outcome)
    ensures HasRun(s, inputs, k) <==> inputs[i].Settle?
  {
    hide CallStep, Sound, Step, Settles, AgentLoop.Run, HasRun, InOneBatch;
    NothingRun(s);
    assert inputs != [];
    var front, last := inputs[..|inputs| - 1], inputs[|inputs| - 1];
    assert inputs == front + [last];
    RunPush(s, front, last);
    StaysSound(s, front);
    HasRunPush(s, front, last, k);
    var before := AgentLoop.Run(s, front);
    if before.stage.Tools? {
      StepIsCallStep(before, last, k);
      CallStepMeans(before, last, AgentLoop.Run(s, inputs), k);
      if k < |CallsOf(before)| && Ended(CallsOf(before)[k]) {
        i := OutcomeHasCause(s, front, k);
        InOneBatchPush(s, front, last, i);
        assert front[..i] == inputs[..i];
      } else {
        i := |front|;
        InOneBatchNow(s, front);
        InOneBatchPush(s, front, last, i);
        SettledNow(s, front, last, k, CallsOf(AgentLoop.Run(s, inputs))[k].outcome);
      }
    } else {
      BatchBeginsEmpty(before, last);
    }
  }

  lemma SettledNow(s: State, inputs: seq<Input>, i: Input, k: nat, o: Outcome)
    requires Sound(s) && !s.stage.Tools? && Settles(AgentLoop.Run(s, inputs), i, k, o)
    ensures HasRun(s, inputs, k) <==> i.Settle?
  {
    hide Sound, AgentLoop.Run, HasRun;
    if i.Settle? {
      RunsNow(s, inputs, k);
    } else if HasRun(s, inputs, k) {
      OnceRunning(s, inputs, k);
    }
  }

  // How a batch is carried out.

  /** What the reply and the tools ask for. */
  function StyleOf(reply: Message, parallel: bool): Style
    requires reply.Assistant?
  {
    if reply.stop == Length then Truncated else if parallel then Parallel else Sequential
  }

  /** Unless a batch is parallel, only its last call has not ended, and only that call's result has not been
      delivered. In a parallel batch nothing is executed while calls are prepared, one after the other; no call is
      prepared once they are executed; and no result is delivered before all of them have ended. */
  predicate InOrder(b: Batch) {
    && (forall k :: 0 <= k < |b.calls| ==>
          var c, last := b.calls[k], k == |b.calls| - 1;
          if b.style != Parallel then last || c.Reported?
          else if b.launched then !c.Preparing? && !c.Prepared?
          else !c.Busy? && (last || c.Prepared? || c.Reported?))
    && if b.style != Parallel then |b.calls| <= b.results + 1
       else b.results > 0 || b.open ==> b.launched && Reportable(b.calls, |b.calls|)
  }

  predicate OrderKept(t: State) {
    t.stage.Tools? ==> InOrder(t.stage.batch)
  }

  lemma DeliverInOrder(s: State, b: Batch)
    requires s.stage == Tools(b) && b.reply.Assistant? && InOrder(b) && (b.open || ResultsDue(b))
    ensures OrderKept(DeliverResult(s, b))
  {
    hide Reduce;
  }

  lemma StartInOrder(s: State, b: Batch)
    requires s.stage == Tools(b) && b.reply.Assistant? && |b.calls| < |b.reply.calls| && InOrder(b) && !b.launched
    requires !b.open && !ResultsDue(b)
    ensures OrderKept(StartCall(s, b))
  {
    hide Reduce;
  }

  lemma LaunchInOrder(s: State, b: Batch)
    requires s.stage == Tools(b) && b.style == Parallel && !b.launched && InOrder(b)
    ensures OrderKept(Launch(s, b))
  {
    hide Launched;
  }

  lemma EndInOrder(s: State, b: Batch)
    requires s.stage == Tools(b) && b.reply.Assistant? && InOrder(b)
    ensures OrderKept(EndBatch(s, b))
  {
    hide Executions, ResultsOf, Reportable, AllTerminate;
  }

  lemma SetInOrder(s: State, b: Batch, n: nat, c: Call)
    requires s.stage == Tools(b) && n < |b.calls| && InOrder(b)
    requires b.calls[n].Reported? ==> b.style != Parallel
    requires c.Reported? || (n == |b.calls| - 1 && b.calls[n].Preparing? && !c.Preparing? && !c.Busy?)
             || (n == |b.calls| - 1 && b.style != Parallel) || (b.calls[n].Busy? && c.Settled?)
    ensures OrderKept(SetCall(s, b, n, c))
  {
  }

  lemma GoInOrder(s: State, b: Batch)
    requires s.stage == Tools(b) && b.reply.Assistant? && InOrder(b)
    ensures OrderKept(BatchStep(s, b))
  {
    hide ResultsDue, DeliverResult, SetCall, StartCall, Launch, EndBatch, InOrder;
    if b.open || ResultsDue(b) {
      DeliverInOrder(s, b);
    } else if ExecutionDue(b) {
      SetInOrder(s, b, |b.calls| - 1, Busy);
    } else if !b.launched && !NoFurtherCall(s, b) {
      StartInOrder(s, b);
    } else if b.style == Parallel && !b.launched {
      LaunchInOrder(s, b);
    } else {
      EndInOrder(s, b);
    }
  }

  lemma ReportInOrder(s: State, b: Batch, k: nat)
    requires s.stage == Tools(b) && b.reply.Assistant? && InOrder(b)
    ensures OrderKept(ToolInput(s, b, Report(k)))
  {
    hide Reduce, BatchStep, SetCall, InOrder;
    if k < |b.calls| <= |b.reply.calls| && b.calls[k].Settled? {
      var t := Emit(s, ToolEnd(k, b.reply.calls[k].id, b.calls[k].outcome));
      SetInOrder(t, b, k, Reported(b.calls[k].outcome));
    }
  }

  lemma InputInOrder(s: State, b: Batch, i: Input)
    requires s.stage == Tools(b) && b.reply.Assistant? && !i.Go? && InOrder(b)
    ensures OrderKept(ToolInput(s, b, i))
  {
    hide ToolInput, SetCall, Decided, InOrder;
    if i.Report? {
      ReportInOrder(s, b, i.position);
    } else if i.Progressed? {
      ProgressInOrder(s, b, i.position);
    } else {
      DecidedInput(s, b, i);
      if Decided(s, b, i).Some? { DecidedInOrder(s, b, i); }
    }
  }

  lemma ProgressInOrder(s: State, b: Batch, k: nat)
    requires s.stage == Tools(b) && b.reply.Assistant? && InOrder(b)
    ensures OrderKept(ToolInput(s, b, Progressed(k)))
  {
    hide Reduce, BatchStep, InOrder;
  }

  lemma DecidedInOrder(s: State, b: Batch, i: Input)
    requires s.stage == Tools(b) && InOrder(b) && Decided(s, b, i).Some?
    ensures var (n, c) := Decided(s, b, i).value; n < |b.calls| && OrderKept(SetCall(s, b, n, c))
  {
    hide SetCall, InOrder;
    var (n, c) := Decided(s, b, i).value;
    SetInOrder(s, b, n, c);
  }

  lemma StepInOrder(s: State, i: Input)
    requires Sound(s) && OrderKept(s)
    ensures OrderKept(Step(s, i))
  {
    hide Sound, BatchStep, ToolInput, Step, BatchOk, InOrder;
    if s.stage.Tools? {
      var b := s.stage.batch;
      BatchFacts(s, b);
      if i.Go? {
        GoIsBatchStep(s, b);
        GoInOrder(s, b);
      } else {
        OtherInput(s, b, i);
        InputInOrder(s, b, i);
      }
    } else if Step(s, i).stage.Tools? {
      BatchBeginsEmpty(s, i);
      NoneOutOfOrder(Step(s, i).stage.batch);
    }
  }

  lemma NoneOutOfOrder(b: Batch)
    requires b.calls == [] && b.results == 0 && !b.open
    ensures InOrder(b)
  {
  }

  /** Every batch of every run is carried out in order. */
  lemma {:induction false} EveryBatchIsInOrder(messages: seq<Message>, m: Mode, n: Mode, inputs: seq<Input>)
    ensures OrderKept(AgentLoop.Run(Start(messages, m, n), inputs))
  {
    hide Sound, Step, InOrder;
    var s := Start(messages, m, n);
    StartsSound(messages, m, n);
    if inputs != [] {
      var front := inputs[..|inputs| - 1];
      EveryBatchIsInOrder(messages, m, n, front);
      StaysSound(s, front);
      StepInOrder(AgentLoop.Run(s, front), inputs[|inputs| - 1]);
    }
  }

  /** A batch begins when the calls of a finished reply are to be carried out. */
  lemma BatchBegins(s: State, i: Input)
    requires !s.stage.Tools? && Step(s, i).stage.Tools?
    ensures i.Execute? && s.stage.ReplyDone? && s.stage.reply.Assistant?
    ensures var b := Step(s, i).stage.batch; b.reply == s.stage.reply && b.style == StyleOf(b.reply, i.parallel)
  {
    hide Step;
    ExecuteBegins(s, i);
    Dispatches(s, i.parallel);
  }

  /** How a batch is carried out was decided when it began: all at once if and only if that was asked for and
      the reply was not cut off. */
  lemma {:induction false} StyleIsAsAsked(messages: seq<Message>, m: Mode, n: Mode, inputs: seq<Input>)
    returns (i: nat)
    requires AgentLoop.Run(Start(messages, m, n), inputs).stage.Tools?
    ensures var s := Start(messages, m, n);
            var b := AgentLoop.Run(s, inputs).stage.batch;
            && i < |inputs| && inputs[i].Execute? && AgentLoop.Run(s, inputs[..i]).stage == ReplyDone(b.reply)
            && b.reply.Assistant? && b.style == StyleOf(b.reply, inputs[i].parallel)
            && InOneBatch(s, inputs, i + 1)
  {
    hide Sound, Step, AgentLoop.Run, CallStep, InOneBatch, StyleOf;
    var s := Start(messages, m, n);
    StartsSound(messages, m, n);
    NothingRun(s);
    assert inputs != [];
    var front, last := inputs[..|inputs| - 1], inputs[|inputs| - 1];
    assert inputs == front + [last];
    RunPush(s, front, last);
    StaysSound(s, front);
    var before := AgentLoop.Run(s, front);
    if before.stage.Tools? {
      i := StyleIsAsAsked(messages, m, n, front);
      StepIsCallStep(before, last, 0);
      CallStepMeans(before, last, AgentLoop.Run(s, inputs), 0);
      InOneBatchPush(s, front, last, i + 1);
      assert front[..i] == inputs[..i];
    } else {
      i := |front|;
      BatchBegins(before, last);
      InOneBatchNow(s, inputs);
    }
  }

  // What is recorded, and when.

  /** The step that records an event, as far as the model and the tools have a part in it. */
  ghost predicate Explained(s: State, i: Input, e: Event) {
    match e
    case ToolEnd(k, id, o) =>
      && i == Report(k) && s.stage.Tools? && k < |CallsOf(s)| && CallsOf(s)[k] == Settled(o)
      && s.stage.batch.reply.Assistant? && k < |s.stage.batch.reply.calls| && id == s.stage.batch.reply.calls[k].id
    case MessageStart(m) => m.Assistant? ==> i == StreamStart(m) || s.stage == ReplyStart(m)
    case MessageUpdate(m) => i == StreamUpdate(m)
    case MessageEnd(m) => m.Assistant? ==> s.stage == ReplyEnd(m)
    case _ => true
  }

  /** A step records one event, or none, or begins a new run. */
  ghost predicate Records(s: State, i: Input, t: State) {
    t.trace == s.trace || t.trace == [] || (exists e: Event :: Appends(s, t, e) && Explained(s, i, e))
  }

  predicate Appends(s: State, t: State, e: Event) {
    t.trace == s.trace + [e]
  }

  lemma RecordsNothing(s: State, i: Input, t: State)
    requires t.trace == s.trace || t.trace == []
    ensures Records(s, i, t)
  {
  }

  lemma RecordsOne(s: State, i: Input, t: State, e: Event)
    requires t.trace == s.trace + [e] && Explained(s, i, e)
    ensures Records(s, i, t)
  {
    hide Explained;
    assert Appends(s, t, e);
  }

  lemma UserAt(messages: seq<Message>, k: nat)
    requires AllUser(messages) && k < |messages|
    ensures messages[k].User?
  {
  }

  lemma OpenRecords(s: State)
    requires Control(s)
    ensures Records(s, Go, Open(s))
  {
    hide Records, Reduce, AllUser;
    match s.stage {
      case Starting => RecordsOne(s, Go, Open(s), AgentStart);
      case FirstTurn => RecordsOne(s, Go, Open(s), TurnStart);
      case PromptStart(k) =>
        if k < |s.prompts| {
          UserAt(s.prompts, k);
          RecordsOne(s, Go, Open(s), MessageStart(s.prompts[k]));
        } else { RecordsNothing(s, Go, Open(s)); }
      case PromptEnd(k) =>
        UserAt(s.prompts, k);
        RecordsOne(s, Go, Open(s), MessageEnd(s.prompts[k]));
      case _ => RecordsNothing(s, Go, Open(s));
    }
  }

  lemma DrainRecords(s: State)
    ensures Records(s, Go, Drain(s))
  {
    hide Records, Queue.Head, Queue.Rest;
    RecordsNothing(s, Go, Drain(s));
  }

  lemma InjectRecords(s: State)
    requires Control(s)
    ensures Records(s, Go, Inject(s))
  {
    hide Records, Reduce, AllUser;
    match s.stage {
      case LoopHead => HeadRecords(s);
      case InjectStart(k) =>
        if k < |s.pending| {
          UserAt(s.pending, k);
          RecordsOne(s, Go, Inject(s), MessageStart(s.pending[k]));
        } else { RecordsNothing(s, Go, Inject(s)); }
      case InjectEnd(k) =>
        UserAt(s.pending, k);
        RecordsOne(s, Go, Inject(s), MessageEnd(s.pending[k]));
      case _ => RecordsNothing(s, Go, Inject(s));
    }
  }

  lemma HeadRecords(s: State)
    requires s.stage.LoopHead?
    ensures Records(s, Go, Inject(s))
  {
    hide Records, Reduce;
    if Inject(s).trace == s.trace {
      RecordsNothing(s, Go, Inject(s));
    } else {
      RecordsOne(s, Go, Inject(s), TurnStart);
    }
  }

  lemma CloseRecords(s: State)
    ensures Records(s, Go, Close(s))
  {
    hide Records, Reduce, AllExecuted, ResultsOf;
    if s.stage.TurnEnding? {
      TurnEndRecords(s);
    } else {
      match s.stage {
        case ReplyStart(m) => RecordsOne(s, Go, Close(s), MessageStart(m));
        case ReplyEnd(m) => RecordsOne(s, Go, Close(s), MessageEnd(m));
        case Finishing => RecordsOne(s, Go, Close(s), AgentEnd(s.newMessages));
        case _ => RecordsNothing(s, Go, Close(s));
      }
    }
  }

  lemma TurnEndRecords(s: State)
    requires s.stage.TurnEnding?
    ensures Records(s, Go, Close(s))
  {
    hide Records, Reduce, AllExecuted, ResultsOf;
    if Close(s).trace == s.trace {
      RecordsNothing(s, Go, Close(s));
    } else {
      var m := s.stage.reply;
      RecordsOne(s, Go, Close(s), TurnEnd(m, ResultsOf(m.calls, s.stage.executions)));
    }
  }

  lemma StreamRecords(s: State, i: Input)
    requires s.stage.Request?
    ensures Records(s, i, Stream(s, i))
  {
    hide Records, Reduce;
    match i {
      case StreamStart(m) =>
        if m.Assistant? && s.stage.partial.None? { RecordsOne(s, i, Stream(s, i), MessageStart(m)); }
        else { RecordsNothing(s, i, Stream(s, i)); }
      case StreamUpdate(m) =>
        if m.Assistant? && s.stage.partial.Some? && s.context != [] {
          RecordsOne(s, i, Stream(s, i), MessageUpdate(m));
        } else { RecordsNothing(s, i, Stream(s, i)); }
      case _ => RecordsNothing(s, i, Stream(s, i));
    }
  }

  lemma BatchRecords(s: State, b: Batch)
    requires s.stage == Tools(b) && b.reply.Assistant?
    ensures Records(s, Go, BatchStep(s, b))
  {
    hide Records, ResultsDue, DeliverResult, StartCall, Launch, EndBatch, SetCall;
    if b.open || ResultsDue(b) {
      DeliverRecords(s, b);
    } else if ExecutionDue(b) {
      QuietRecords(s, b);
    } else if !b.launched && !NoFurtherCall(s, b) {
      StartRecords(s, b);
    } else {
      QuietRecords(s, b);
    }
  }

  lemma DeliverRecords(s: State, b: Batch)
    requires s.stage == Tools(b) && b.reply.Assistant?
    ensures Records(s, Go, DeliverResult(s, b))
  {
    hide Records, Reduce;
    if b.results < |b.calls| && b.calls[b.results].Reported? && b.results < |b.reply.calls| {
      var m := ResultMessage(b, b.results);
      RecordsOne(s, Go, DeliverResult(s, b), if b.open then MessageEnd(m) else MessageStart(m));
    } else {
      RecordsNothing(s, Go, DeliverResult(s, b));
    }
  }

  lemma StartRecords(s: State, b: Batch)
    requires s.stage == Tools(b) && b.reply.Assistant? && |b.calls| < |b.reply.calls|
    ensures Records(s, Go, StartCall(s, b))
  {
    hide Records, Reduce;
    if StartCall(s, b).trace == s.trace {
      RecordsNothing(s, Go, StartCall(s, b));
    } else {
      RecordsOne(s, Go, StartCall(s, b), ToolStart(|b.calls|, b.reply.calls[|b.calls|].id));
    }
  }

  lemma QuietRecords(s: State, b: Batch)
    requires s.stage == Tools(b) && b.reply.Assistant?
    ensures Records(s, Go, Launch(s, b)) && Records(s, Go, EndBatch(s, b))
    ensures b.calls != [] ==> Records(s, Go, SetCall(s, b, |b.calls| - 1, Busy))
  {
    hide Records, Launched, Executions, ResultsOf, Reportable, AllTerminate;
    RecordsNothing(s, Go, Launch(s, b));
    RecordsNothing(s, Go, EndBatch(s, b));
    if b.calls != [] { RecordsNothing(s, Go, SetCall(s, b, |b.calls| - 1, Busy)); }
  }

  lemma ToolInputRecords(s: State, b: Batch, i: Input)
    requires s.stage == Tools(b) && b.reply.Assistant? && !i.Go?
    ensures Records(s, i, ToolInput(s, b, i))
  {
    hide Records, Reduce, BatchStep;
    var n := |b.calls|;
    if i.Progressed? && i.position < n <= |b.reply.calls| && b.calls[i.position].Busy? {
      RecordsOne(s, i, ToolInput(s, b, i), ToolUpdate(i.position, b.reply.calls[i.position].id));
    } else if i.Report? && i.position < n <= |b.reply.calls| && b.calls[i.position].Settled? {
      var k := i.position;
      RecordsOne(s, i, ToolInput(s, b, i), ToolEnd(k, b.reply.calls[k].id, b.calls[k].outcome));
    } else {
      RecordsNothing(s, i, ToolInput(s, b, i));
    }
  }

  lemma ReactRecords(s: State, i: Input)
    requires Control(s)
    ensures Records(s, i, React(s, i))
  {
    hide Records, Control, Stream, ToolInput, BatchStep, Open, Drain, Inject, Close;
    if s.stage.Request? {
      StreamRecords(s, i);
    } else if s.stage.Tools? && s.stage.batch.reply.Assistant? {
      if i.Go? {
        BatchRecords(s, s.stage.batch);
        GoIsBatch(s, s.stage.batch);
      } else {
        ToolInputRecords(s, s.stage.batch, i);
      }
    } else if i.Go? {
      OpenRecords(s);
      DrainRecords(s);
      InjectRecords(s);
      CloseRecords(s);
    } else {
      RecordsNothing(s, i, s);
    }
  }

  lemma GoIsBatch(s: State, b: Batch)
    requires s.stage == Tools(b) && b.reply.Assistant?
    ensures ToolInput(s, b, Go) == BatchStep(s, b)
  {
    hide BatchStep;
  }

  lemma OutsideRecords(s: State, i: Input)
    requires !i.Abort? && (Step(s, i) == React(s, i) ==> Records(s, i, React(s, i)))
    ensures Records(s, i, Step(s, i))
  {
    hide Records, React, Continue, Dispatch, Queue.Add, Prompts;
    ContinueTrace(s);
    if i.Execute? && s.stage.ReplyDone? && s.stage.reply.Assistant? { DispatchTrace(s, s.stage.reply, i.parallel); }
    if Step(s, i) != React(s, i) {
      RecordsNothing(s, i, Step(s, i));
    }
  }

  lemma ContinueTrace(s: State)
    ensures Continue(s).trace == s.trace || Continue(s).trace == []
  {
    hide Queue.Head, Queue.Rest;
  }

  lemma DispatchTrace(s: State, reply: Message, parallel: bool)
    requires reply.Assistant?
    ensures Dispatch(s, reply, parallel).trace == s.trace
  {
  }

  lemma StepRecords(s: State, i: Input)
    requires Control(s)
    ensures Records(s, i, Step(s, i))
  {
    hide Records, React, Step, Control;
    ReactRecords(s, i);
    if i.Abort? {
      AbortRecords(s);
    } else {
      OutsideRecords(s, i);
    }
  }

  lemma AbortRecords(s: State)
    ensures Records(s, Abort, Step(s, Abort))
  {
    hide Records, Reduce;
    if s.stage.Idle? {
      RecordsNothing(s, Abort, s);
    } else {
      RecordsOne(s, Abort, Step(s, Abort), AbortRequested);
    }
  }

  /** Every event of the trace was recorded by a step of the run, which explains it. */
  lemma {:induction false} EventIsRecorded(s: State, inputs: seq<Input>, p: nat) returns (j: nat)
    requires Sound(s) && s.trace == [] && p < |AgentLoop.Run(s, inputs).trace|
    ensures j < |inputs| && |AgentLoop.Run(s, inputs[..j]).trace| == p
    ensures Explained(AgentLoop.Run(s, inputs[..j]), inputs[j], AgentLoop.Run(s, inputs).trace[p])
  {
    hide Sound, Step, AgentLoop.Run, Explained;
    NothingRun(s);
    assert inputs != [];
    var front, last := inputs[..|inputs| - 1], inputs[|inputs| - 1];
    assert inputs == front + [last];
    RunPush(s, front, last);
    StaysSound(s, front);
    var before, after := AgentLoop.Run(s, front), AgentLoop.Run(s, inputs);
    SoundControl(before);
    StepRecords(before, last);
    if p < |before.trace| {
      j := EventIsRecorded(s, front, p);
      assert front[..j] == inputs[..j];
    } else {
      j := |front|;
      var e: Event :| Appends(before, after, e) && Explained(before, last, e);
    }
  }

  lemma SoundControl(s: State)
    requires Sound(s)
    ensures Control(s)
  {
  }

  // Outcomes.

  /** For every end of a call in every run: it was reported by an input, and settled before by another one of
      the same batch, with that outcome. The call has been executing if and only if its tool settled it; else
      it was refused. */
  lemma EveryOutcomeHasCause(messages: seq<Message>, m: Mode, n: Mode, inputs: seq<Input>, p: nat)
    returns (i: nat, j: nat)
    requires var s := AgentLoop.Run(Start(messages, m, n), inputs); p < |s.trace| && s.trace[p].ToolEnd?
    ensures var start := Start(messages, m, n);
            var e := AgentLoop.Run(start, inputs).trace[p];
            && i < j < |inputs| && inputs[j] == Report(e.position) && InOneBatch(start, inputs[..j], i)
            && Settles(AgentLoop.Run(start, inputs[..i]), inputs[i], e.position, e.outcome)
            && (HasRun(start, inputs[..j], e.position) <==> inputs[i].Settle?)
  {
    hide Sound, AgentLoop.Run, Settles, HasRun, InOneBatch;
    var start := Start(messages, m, n);
    StartsSound(messages, m, n);
    j := EventIsRecorded(start, inputs, p);
    var e := AgentLoop.Run(start, inputs).trace[p];
    i := OutcomeHasCause(start, inputs[..j], e.position);
    assert inputs[..j][..i] == inputs[..i];
  }

  lemma StartsSound(messages: seq<Message>, m: Mode, n: Mode)
    ensures var s := Start(messages, m, n); Sound(s) && s.stage == Idle && s.trace == []
  {
    var none: seq<Input> := [];
    EveryRunIsWellFormed(messages, m, n, none);
    NothingRun(Start(messages, m, n));
  }

  // Replies.

  /** The reply that is being delivered or answered. */
  function ReplyOf(s: State): Option<Message> {
    match s.stage
    case ReplyStart(m) => Some(m)
    case ReplyEnd(m) => Some(m)
    case ReplyDone(m) => Some(m)
    case _ => None
  }

  /** The reply of `t` is that of `s`, or the model has completed it just now. */
  predicate ReplyStays(s: State, i: Input, t: State) {
    ReplyOf(t).Some? ==> ReplyOf(s) == ReplyOf(t) || (s.stage.Request? && i == StreamDone(ReplyOf(t).value))
  }

  lemma ReplyStep(s: State, i: Input)
    ensures ReplyStays(s, i, Step(s, i))
  {
    hide Step, React, Continue, Begin, Dispatch, ReplyStays;
    if i.Abort? {
      AbortReply(s);
    } else if i.StartPrompt? {
      PromptReply(s, i.texts);
    } else if i.StartContinue? {
      ContinueReply(s);
    } else if i.Execute? {
      ExecuteReply(s, i.parallel);
    } else if i.Steer? || i.FollowUp? || i.SetModes? || i.Replace? || i.Answer? {
      QueueReply(s, i);
    } else {
      ReactReply(s, i);
      IsReaction(s, i);
    }
  }

  lemma AbortReply(s: State)
    ensures ReplyStays(s, Abort, Step(s, Abort))
  {
    hide Emit;
    EmitStays(s, AbortRequested);
  }

  lemma PromptReply(s: State, texts: seq<string>)
    ensures ReplyStays(s, StartPrompt(texts), Step(s, StartPrompt(texts)))
  {
    hide Begin;
    BeginsWith(s, Prompts(texts), false);
  }

  lemma ContinueReply(s: State)
    ensures ReplyStays(s, StartContinue, Step(s, StartContinue))
  {
    hide Continue;
    NoReplyBegins(s);
  }

  lemma ExecuteReply(s: State, parallel: bool)
    ensures ReplyStays(s, Execute(parallel), Step(s, Execute(parallel)))
  {
    hide Dispatch;
    if s.stage.ReplyDone? && s.stage.reply.Assistant? {
      NoReplyDispatched(s, s.stage.reply, parallel);
    }
  }

  lemma QueueReply(s: State, i: Input)
    requires i.Steer? || i.FollowUp? || i.SetModes? || i.Replace? || i.Answer?
    ensures ReplyStays(s, i, Step(s, i))
  {
    hide Queue.Add;
  }

  lemma IsReaction(s: State, i: Input)
    requires !i.Abort? && !i.StartPrompt? && !i.StartContinue? && !i.Execute?
    requires !i.Steer? && !i.FollowUp? && !i.SetModes? && !i.Replace? && !i.Answer?
    ensures Step(s, i) == React(s, i)
  {
    hide React;
  }

  lemma NoReplyBegins(s: State)
    ensures Continue(s) == s || Continue(s).stage == Starting
  {
    hide Queue.Head, Queue.Rest;
  }

  lemma NoReplyDispatched(s: State, reply: Message, parallel: bool)
    requires reply.Assistant?
    ensures ReplyOf(Dispatch(s, reply, parallel)) == None
  {
  }

  lemma ReactReply(s: State, i: Input)
    ensures ReplyStays(s, i, React(s, i))
  {
    hide Emit, Stream, ToolInput, Advance, ReplyStays;
    if s.stage.Request? {
      StreamReply(s, i);
    } else if s.stage.Tools? && s.stage.batch.reply.Assistant? {
      ToolsReply(s, s.stage.batch, i);
      NoReplyStays(s, i, React(s, i));
    } else if i.Go? {
      AdvanceReply(s);
    } else {
      SameReplyStays(s, i);
    }
  }

  lemma NoReplyStays(s: State, i: Input, t: State)
    requires ReplyOf(t) == None
    ensures ReplyStays(s, i, t)
  {
  }

  lemma SameReplyStays(s: State, i: Input)
    ensures ReplyStays(s, i, s)
  {
  }

  lemma StreamReply(s: State, i: Input)
    requires s.stage.Request?
    ensures ReplyStays(s, i, Stream(s, i))
  {
    hide Reduce;
  }

  lemma ToolsReply(s: State, b: Batch, i: Input)
    requires s.stage == Tools(b) && b.reply.Assistant?
    ensures ReplyOf(ToolInput(s, b, i)) == None
  {
    hide Reduce, BatchStep;
    if i.Go? {
      GoIsBatch(s, b);
      BatchReply(s, b);
    }
  }

  lemma BatchReply(s: State, b: Batch)
    requires s.stage == Tools(b) && b.reply.Assistant?
    ensures ReplyOf(BatchStep(s, b)) == None
  {
    hide ResultsDue, DeliverResult, StartCall, Launch, EndBatch, SetCall;
    DeliverLeads(s, b);
    if |b.calls| < |b.reply.calls| { StartLeads(s, b); }
    LaunchLeads(s, b);
    if ExecutionDue(b) { SetLeads(s, b, |b.calls| - 1, Busy); }
    EndReply(s, b);
  }

  lemma EndReply(s: State, b: Batch)
    requires s.stage == Tools(b) && b.reply.Assistant?
    ensures ReplyOf(EndBatch(s, b)) == None
  {
    hide Executions, ResultsOf, Reportable, AllTerminate;
  }

  lemma AdvanceReply(s: State)
    ensures ReplyStays(s, Go, Advance(s))
  {
    hide Open, Drain, Inject, Close, ReplyStays;
    OpenReply(s);
    DrainReply(s);
    InjectReply(s);
    CloseReply(s);
  }

  lemma OpenReply(s: State)
    ensures ReplyStays(s, Go, Open(s))
  {
    hide Emit;
  }

  lemma DrainReply(s: State)
    ensures ReplyStays(s, Go, Drain(s))
  {
    hide Queue.Head, Queue.Rest;
  }

  lemma InjectReply(s: State)
    ensures ReplyStays(s, Go, Inject(s))
  {
    hide Emit;
  }

  lemma CloseReply(s: State)
    ensures ReplyStays(s, Go, Close(s))
  {
    hide Emit, AllExecuted, ResultsOf;
  }

  /** A reply under way was completed by the model. */
  lemma {:induction false} ReplyHasCause(s: State, inputs: seq<Input>) returns (i: nat)
    requires ReplyOf(s) == None && ReplyOf(AgentLoop.Run(s, inputs)).Some?
    ensures i < |inputs| && inputs[i] == StreamDone(ReplyOf(AgentLoop.Run(s, inputs)).value)
    ensures AgentLoop.Run(s, inputs[..i]).stage.Request?
    ensures forall j :: i < j <= |inputs| ==>
              ReplyOf(AgentLoop.Run(s, inputs[..j])) == ReplyOf(AgentLoop.Run(s, inputs))
  {
    hide Step, AgentLoop.Run;
    NothingRun(s);
    assert inputs != [] && inputs[..|inputs|] == inputs;
    var front, last := inputs[..|inputs| - 1], inputs[|inputs| - 1];
    assert inputs == front + [last];
    RunPush(s, front, last);
    ReplyStep(AgentLoop.Run(s, front), last);
    if ReplyOf(AgentLoop.Run(s, front)) == ReplyOf(AgentLoop.Run(s, inputs)) {
      i := ReplyHasCause(s, front);
      forall j | 0 <= j <= |front| ensures front[..j] == inputs[..j] {
      }
    } else {
      i := |front|;
    }
  }

  /** For every reply delivered in every run: it is the one with which the model completed its stream, and
      nothing else was delivered as a reply in between. */
  lemma EveryReplyIsTheModels(messages: seq<Message>, m: Mode, n: Mode, inputs: seq<Input>, p: nat)
    returns (i: nat, j: nat)
    requires var s := AgentLoop.Run(Start(messages, m, n), inputs);
             p < |s.trace| && s.trace[p].MessageEnd? && s.trace[p].message.Assistant?
    ensures var start := Start(messages, m, n);
            && i < j < |inputs| && inputs[i] == StreamDone(AgentLoop.Run(start, inputs).trace[p].message)
            && AgentLoop.Run(start, inputs[..i]).stage.Request? && |AgentLoop.Run(start, inputs[..j]).trace| == p
  {
    hide Sound, AgentLoop.Run;
    var start := Start(messages, m, n);
    StartsSound(messages, m, n);
    j := EventIsRecorded(start, inputs, p);
    i := ReplyHasCause(start, inputs[..j]);
    assert inputs[..j][..i] == inputs[..i];
  }

  // Messages of the user.

  /** The messages that inputs add to a queue. */
  function Queued(inputs: seq<Input>, source: Source): seq<Message> {
    if inputs == [] then []
    else
      var before, last := Queued(inputs[..|inputs| - 1], source), inputs[|inputs| - 1];
      if source == Steered && last.Steer? then before + [User(last.text, Steered)]
      else if source == FollowedUp && last.FollowUp? then before + [User(last.text, FollowedUp)]
      else before
  }

  lemma QueuedStep(s: State, i: Input)
    ensures Step(s, i).steered == if i.Steer? then s.steered + [User(i.text, Steered)] else s.steered
    ensures Step(s, i).followed == if i.FollowUp? then s.followed + [User(i.text, FollowedUp)] else s.followed
  {
    hide React, Continue, Begin, Dispatch, Emit, Queue.Add;
    SameQueued(s, i);
    if i.StartPrompt? { BeginQueued(s, Prompts(i.texts), false); }
    if s.stage.ReplyDone? && s.stage.reply.Assistant? && i.Execute? {
      DispatchQueued(s, s.stage.reply, i.parallel);
    }
    EmitQueued(s, AbortRequested);
  }

  predicate SameHistory(s: State, t: State) {
    t.steered == s.steered && t.followed == s.followed
  }

  lemma EmitQueued(s: State, e: Event)
    ensures SameHistory(s, Emit(s, e))
  {
  }

  ghost predicate EmitsQueued(s: State) {
    forall e: Event :: SameHistory(s, Emit(s, e)) && Emit(s, e).stage == s.stage
  }

  lemma AnyEmit(s: State)
    ensures EmitsQueued(s)
  {
    forall e: Event ensures SameHistory(s, Emit(s, e)) && Emit(s, e).stage == s.stage {
      EmitQueued(s, e);
    }
  }

  lemma BeginQueued(s: State, prompts: seq<Message>, skip: bool)
    ensures SameHistory(s, Begin(s, prompts, skip))
  {
  }

  lemma DispatchQueued(s: State, reply: Message, parallel: bool)
    requires reply.Assistant?
    ensures SameHistory(s, Dispatch(s, reply, parallel))
  {
  }

  lemma SameQueued(s: State, i: Input)
    ensures SameHistory(s, React(s, i)) && SameHistory(s, Continue(s))
  {
    hide Stream, ToolInput, Advance, Begin, Queue.Head, Queue.Rest, SameHistory;
    ContinueQueued(s);
    SelfSame(s);
    if s.stage.Request? {
      StreamQueued(s, i);
    } else if s.stage.Tools? && s.stage.batch.reply.Assistant? {
      ToolsQueued(s, s.stage.batch, i);
    } else if i.Go? {
      AdvanceQueued(s);
    }
  }

  lemma SelfSame(s: State)
    ensures SameHistory(s, s)
  {
  }

  lemma ContinueQueued(s: State)
    ensures SameHistory(s, Continue(s))
  {
    hide Queue.Head, Queue.Rest;
  }

  lemma StreamQueued(s: State, i: Input)
    requires s.stage.Request?
    ensures SameHistory(s, Stream(s, i))
  {
    hide Emit;
    AnyEmit(s);
  }

  lemma AdvanceQueued(s: State)
    ensures SameHistory(s, Advance(s))
  {
    hide Open, Drain, Inject, Close, SameHistory;
    OpenQueued(s);
    DrainQueued(s);
    InjectQueued(s);
    CloseQueued(s);
  }

  lemma OpenQueued(s: State)
    ensures SameHistory(s, Open(s))
  {
    hide Emit;
    AnyEmit(s);
  }

  lemma DrainQueued(s: State)
    ensures SameHistory(s, Drain(s))
  {
    hide Queue.Head, Queue.Rest;
  }

  lemma InjectQueued(s: State)
    ensures SameHistory(s, Inject(s))
  {
    hide Emit;
    AnyEmit(s);
  }

  lemma CloseQueued(s: State)
    ensures SameHistory(s, Close(s))
  {
    hide Emit, AllExecuted, ResultsOf;
    AnyEmit(s);
  }

  lemma ToolsQueued(s: State, b: Batch, i: Input)
    requires s.stage == Tools(b) && b.reply.Assistant?
    ensures SameHistory(s, ToolInput(s, b, i))
  {
    hide Emit, BatchStep;
    AnyEmit(s);
    if i.Go? {
      GoIsBatch(s, b);
      BatchQueued(s, b);
    }
  }

  lemma BatchQueued(s: State, b: Batch)
    requires s.stage == Tools(b) && b.reply.Assistant?
    ensures SameHistory(s, BatchStep(s, b))
  {
    hide ResultsDue, DeliverResult, StartCall, Launch, EndBatch, SameHistory;
    if |b.calls| < |b.reply.calls| { StartQueued(s, b); }
    QuietQueued(s, b);
  }

  lemma StartQueued(s: State, b: Batch)
    requires s.stage == Tools(b) && b.reply.Assistant? && |b.calls| < |b.reply.calls|
    ensures SameHistory(s, StartCall(s, b))
  {
    hide Emit;
    AnyEmit(s);
  }

  lemma QuietQueued(s: State, b: Batch)
    requires s.stage == Tools(b) && b.reply.Assistant?
    ensures SameHistory(s, DeliverResult(s, b)) && SameHistory(s, Launch(s, b)) && SameHistory(s, EndBatch(s, b))
    ensures b.calls != [] ==> SameHistory(s, SetCall(s, b, |b.calls| - 1, Busy))
  {
    hide Emit, Launched, Executions, ResultsOf, Reportable, AllTerminate;
    AnyEmit(s);
  }

  /** The queues' histories are what the user queued: each text once, in order. */
  lemma {:induction false} QueuesHoldWhatWasTyped(messages: seq<Message>, m: Mode, n: Mode, inputs: seq<Input>)
    ensures var s := AgentLoop.Run(Start(messages, m, n), inputs);
            s.steered == Queued(inputs, Steered) && s.followed == Queued(inputs, FollowedUp)
  {
    hide Step;
    if inputs != [] {
      var front := inputs[..|inputs| - 1];
      QueuesHoldWhatWasTyped(messages, m, n, front);
      QueuedStep(AgentLoop.Run(Start(messages, m, n), front), inputs[|inputs| - 1]);
    }
  }

  /** A run that a prompt starts has the prompt's texts, in order, as its first messages. */
  lemma PromptsAreTheTexts(s: State, texts: seq<string>)
    requires s.stage.Idle?
    ensures var t := Step(s, StartPrompt(texts));
            && |t.prompts| == |texts| && t.newMessages == t.prompts && t.base == s.agent.messages && t.trace == []
            && forall k :: 0 <= k < |texts| ==> t.prompts[k] == User(texts[k], Prompted)
  {
  }
}
