/** The tool calls of every turn, one by one: each is started once, ended once and answered once. */
module AgentCalls {
  import opened AgentEvents
  import opened AgentLoop
  import opened AgentSafety
  import opened Text

  /** Where the events of a turn are in a trace: its start, the start of each call, the end of each call
      that has ended, and the result messages delivered. */
  datatype Turn = Turn(begin: nat, starts: seq<nat>, ends: seq<Option<nat>>, answers: seq<nat>)

  predicate Answer(e: Event) {
    e.MessageEnd? && e.message.ToolResult?
  }

  predicate Boundary(e: Event) {
    e.TurnStart? || e.TurnEnd?
  }

  /** The starts: one for each call, where the turn says, and no other. */
  predicate StartsAt(trace: seq<Event>, t: Turn, calls: seq<ToolCall>) {
    && |t.starts| <= |calls|
    && (forall k :: 0 <= k < |t.starts| ==>
          t.begin < t.starts[k] < |trace| && trace[t.starts[k]] == ToolStart(k, calls[k].id))
    && (forall m :: t.begin < m < |trace| && trace[m].ToolStart? ==>
          trace[m].position < |t.starts| && t.starts[trace[m].position] == m)
  }

  /** The ends: one for each call that has been executed, after its start, and no other. */
  predicate EndsAt(trace: seq<Event>, t: Turn, calls: seq<ToolCall>, executions: seq<Execution>) {
    && |t.ends| == |executions| == |t.starts| <= |calls|
    && (forall k :: 0 <= k < |t.ends| ==> (t.ends[k].Some? <==> executions[k].Executed?))
    && (forall k :: 0 <= k < |t.ends| && t.ends[k].Some? ==>
          t.starts[k] < t.ends[k].value < |trace|
          && trace[t.ends[k].value] == ToolEnd(k, calls[k].id, executions[k].outcome))
    && (forall m :: t.begin < m < |trace| && trace[m].ToolEnd? ==>
          trace[m].position < |t.ends| && t.ends[trace[m].position] == Some(m))
  }

  /** The results: the first ones, in the order of the calls, each after the end of its call, and no other. */
  predicate AnswersAt(trace: seq<Event>, t: Turn, calls: seq<ToolCall>, executions: seq<Execution>) {
    && |t.answers| <= |t.ends| == |executions| <= |calls|
    && (forall k :: 0 <= k < |t.answers| ==>
          && executions[k].Executed? && t.ends[k].Some?
          && t.ends[k].value < t.answers[k] < |trace|
          && trace[t.answers[k]] == MessageEnd(ResultOf(calls[k], executions[k])))
    && (forall j, k :: 0 <= j < k < |t.answers| ==> t.answers[j] < t.answers[k])
    && (forall m :: t.begin < m < |trace| && Answer(trace[m]) ==> m in t.answers)
  }

  predicate Within(trace: seq<Event>, t: Turn) {
    && t.begin < |trace| && trace[t.begin].TurnStart?
    && forall m :: t.begin < m < |trace| ==> !Boundary(trace[m])
  }

  function CallsOf(p: Phase): seq<ToolCall> {
    if p.InTurn? && p.reply.Some? && p.reply.value.Assistant? then p.reply.value.calls else []
  }

  /** The turn records what the phase of the trace says. */
  predicate Records(trace: seq<Event>, t: Turn, p: Phase) {
    && p.InTurn? && Shaped(p)
    && Within(trace, t)
    && StartsAt(trace, t, CallsOf(p))
    && EndsAt(trace, t, CallsOf(p), p.calls)
    && AnswersAt(trace, t, CallsOf(p), p.calls)
    && |t.answers| == p.results
    && OpenIsNext(p)
  }

  /** How an event extends the record. */
  function Extend(t: Turn, e: Event, m: nat): Turn {
    match e
    case ToolStart(_, _) => t.(starts := t.starts + [m], ends := t.ends + [None])
    case ToolEnd(k, _, _) => if k < |t.ends| then t.(ends := t.ends[k := Some(m)]) else t
    case MessageEnd(message) => if message.ToolResult? then t.(answers := t.answers + [m]) else t
    case _ => t
  }

  // Each part of the record by itself, for one more event.

  lemma WithinGrows(trace: seq<Event>, t: Turn, u: Turn, e: Event)
    requires Within(trace, t) && !Boundary(e) && u.begin == t.begin
    ensures Within(trace + [e], u)
  {
  }

  lemma StartsStay(trace: seq<Event>, t: Turn, u: Turn, calls: seq<ToolCall>, e: Event)
    requires StartsAt(trace, t, calls) && !e.ToolStart? && u.begin == t.begin && u.starts == t.starts
    ensures StartsAt(trace + [e], u, calls)
  {
  }

  lemma StartsGrow(trace: seq<Event>, t: Turn, u: Turn, calls: seq<ToolCall>, id: string)
    requires StartsAt(trace, t, calls) && t.begin < |trace| && |t.starts| < |calls| && calls[|t.starts|].id == id
    requires u.begin == t.begin && u.starts == t.starts + [|trace|]
    ensures StartsAt(trace + [ToolStart(|t.starts|, id)], u, calls)
  {
  }

  lemma EndsStay(trace: seq<Event>, t: Turn, u: Turn, calls: seq<ToolCall>, executions: seq<Execution>, e: Event)
    requires EndsAt(trace, t, calls, executions) && !e.ToolEnd?
    requires u.begin == t.begin && u.starts == t.starts && u.ends == t.ends
    ensures EndsAt(trace + [e], u, calls, executions)
  {
  }

  lemma EndsForStart(trace: seq<Event>, t: Turn, u: Turn, calls: seq<ToolCall>, executions: seq<Execution>, e: Event)
    requires EndsAt(trace, t, calls, executions) && e.ToolStart? && |t.starts| < |calls|
    requires u.begin == t.begin && u.starts == t.starts + [|trace|] && u.ends == t.ends + [None]
    ensures EndsAt(trace + [e], u, calls, executions + [Executing])
  {
  }

  lemma EndsGrow(trace: seq<Event>, t: Turn, u: Turn, calls: seq<ToolCall>, executions: seq<Execution>, k: nat,
                 outcome: Outcome)
    requires EndsAt(trace, t, calls, executions) && k < |executions| && executions[k] == Executing
    requires t.starts[k] < |trace|
    requires u.begin == t.begin && u.starts == t.starts && u.ends == t.ends[k := Some(|trace|)]
    ensures EndsAt(trace + [ToolEnd(k, calls[k].id, outcome)], u, calls, executions[k := Executed(outcome)])
  {
  }

  lemma AnswersStay(trace: seq<Event>, t: Turn, u: Turn, calls: seq<ToolCall>, executions: seq<Execution>,
                    more: seq<Execution>, e: Event)
    requires AnswersAt(trace, t, calls, executions) && !Answer(e)
    requires u.begin == t.begin && u.answers == t.answers && |u.ends| == |more| <= |calls|
    requires |executions| <= |more|
    requires forall k :: 0 <= k < |executions| && executions[k].Executed? ==>
               more[k] == executions[k] && u.ends[k] == t.ends[k]
    ensures AnswersAt(trace + [e], u, calls, more)
  {
  }

  lemma AnswersGrow(trace: seq<Event>, t: Turn, u: Turn, calls: seq<ToolCall>, executions: seq<Execution>)
    requires AnswersAt(trace, t, calls, executions) && EndsAt(trace, t, calls, executions)
    requires t.begin < |trace|
    requires |t.answers| < |executions| && executions[|t.answers|].Executed?
    requires u.begin == t.begin && u.ends == t.ends && u.answers == t.answers + [|trace|]
    ensures var k := |t.answers|;
            AnswersAt(trace + [MessageEnd(ResultOf(calls[k], executions[k]))], u, calls, executions)
  {
    var k := |t.answers|;
    var e := MessageEnd(ResultOf(calls[k], executions[k]));
    assert (trace + [e])[..|trace|] == trace && (trace + [e])[|trace|] == e;
    hide ResultOf, Answer;
    forall m | t.begin < m < |trace + [e]| && Answer((trace + [e])[m]) ensures m in u.answers {
      if m < |trace| {
        assert trace[m] == (trace + [e])[m];
      } else {
        assert u.answers[k] == m;
      }
    }
  }

  // The phase before and after each kind of event.

  lemma StartPhase(p: Phase, e: Event, aborted: bool)
    requires Shaped(p) && e.ToolStart? && NextPhase(p, e, aborted) != Malformed
    ensures var q := NextPhase(p, e, aborted);
            && p.InTurn? && q.InTurn? && p.open.None? && q.open.None? && CallsOf(q) == CallsOf(p)
            && e.position == |p.calls| < |CallsOf(p)| && CallsOf(p)[e.position].id == e.id
            && q.calls == p.calls + [Executing] && q.results == p.results
  {
  }

  lemma EndPhase(p: Phase, e: Event, aborted: bool)
    requires Shaped(p) && e.ToolEnd? && NextPhase(p, e, aborted) != Malformed
    ensures var q := NextPhase(p, e, aborted);
            && p.InTurn? && q.InTurn? && q.open == p.open && CallsOf(q) == CallsOf(p)
            && e.position < |p.calls| <= |CallsOf(p)| && CallsOf(p)[e.position].id == e.id
            && p.calls[e.position] == Executing
            && q.calls == p.calls[e.position := Executed(e.outcome)] && q.results == p.results
  {
  }

  lemma AnswerPhase(p: Phase, e: Event, aborted: bool)
    requires Shaped(p) && Answer(e) && NextPhase(p, e, aborted) != Malformed
    ensures var q := NextPhase(p, e, aborted);
            && p.InTurn? && q.InTurn? && p.open == Some(e.message) && q.open.None?
            && CallsOf(q) == CallsOf(p) && q.calls == p.calls && q.results == p.results + 1
  {
  }

  lemma OtherPhase(p: Phase, e: Event, aborted: bool)
    requires Shaped(p) && p.InTurn? && NextPhase(p, e, aborted) != Malformed
    requires !e.ToolStart? && !e.ToolEnd? && !Answer(e) && !Boundary(e)
    ensures var q := NextPhase(p, e, aborted);
            && q.InTurn? && q.calls == p.calls && q.results == p.results && (p.calls == [] || CallsOf(q) == CallsOf(p))
            && (q.open.Some? && q.open.value.ToolResult? && q.open != p.open ==>
                  p.results < |p.calls| <= |CallsOf(p)| && p.calls[p.results].Executed?
                  && q.open.value == ResultOf(CallsOf(p)[p.results], p.calls[p.results]))
  {
  }

  lemma StartExtends(trace: seq<Event>, t: Turn, p: Phase, e: Event, aborted: bool)
    requires Records(trace, t, p) && e.ToolStart? && NextPhase(p, e, aborted) != Malformed
    ensures Records(trace + [e], Extend(t, e, |trace|), NextPhase(p, e, aborted))
  {
    hide Within, StartsAt, EndsAt, AnswersAt, NextPhase, Shaped, CallsOf, Records, OpenIsNext;
    RecordsParts(trace, t, p);
    var q, u, calls := NextPhase(p, e, aborted), Extend(t, e, |trace|), CallsOf(p);
    NextShaped(p, e, aborted);
    StartPhase(p, e, aborted);
    WithinGrows(trace, t, u, e);
    StartsGrow(trace, t, u, calls, e.id);
    EndsForStart(trace, t, u, calls, p.calls, e);
    AnswersStay(trace, t, u, calls, p.calls, q.calls, e);
    NothingOpen(q);
    RecordsFrom(trace + [e], u, q);
  }

  lemma EndExtends(trace: seq<Event>, t: Turn, p: Phase, e: Event, aborted: bool)
    requires Records(trace, t, p) && e.ToolEnd? && NextPhase(p, e, aborted) != Malformed
    ensures Records(trace + [e], Extend(t, e, |trace|), NextPhase(p, e, aborted))
  {
    hide Within, StartsAt, EndsAt, AnswersAt, NextPhase, Shaped, CallsOf, Records, OpenIsNext;
    RecordsParts(trace, t, p);
    var q, u, calls := NextPhase(p, e, aborted), Extend(t, e, |trace|), CallsOf(p);
    NextShaped(p, e, aborted);
    EndPhase(p, e, aborted);
    WithinGrows(trace, t, u, e);
    StartsStay(trace, t, u, calls, e);
    StartBefore(trace, t, calls, e.position);
    EndsGrow(trace, t, u, calls, p.calls, e.position, e.outcome);
    AnswersStay(trace, t, u, calls, p.calls, q.calls, e);
    OpenStays(p, q);
    RecordsFrom(trace + [e], u, q);
  }

  lemma AnswerExtends(trace: seq<Event>, t: Turn, p: Phase, e: Event, aborted: bool)
    requires Records(trace, t, p) && Answer(e) && NextPhase(p, e, aborted) != Malformed
    ensures Records(trace + [e], Extend(t, e, |trace|), NextPhase(p, e, aborted))
  {
    hide Within, StartsAt, EndsAt, AnswersAt, NextPhase, Shaped, CallsOf, Records, OpenIsNext;
    RecordsParts(trace, t, p);
    var q, u, calls := NextPhase(p, e, aborted), Extend(t, e, |trace|), CallsOf(p);
    NextShaped(p, e, aborted);
    AnswerPhase(p, e, aborted);
    WithinGrows(trace, t, u, e);
    StartsStay(trace, t, u, calls, e);
    EndsStay(trace, t, u, calls, p.calls, e);
    BeginsInside(trace, t);
    AnswersGrow(trace, t, u, calls, p.calls);
    NothingOpen(q);
    RecordsFrom(trace + [e], u, q);
  }

  lemma OtherExtends(trace: seq<Event>, t: Turn, p: Phase, e: Event, aborted: bool)
    requires Records(trace, t, p) && !e.ToolStart? && !e.ToolEnd? && !Answer(e) && !Boundary(e)
    requires NextPhase(p, e, aborted) != Malformed
    ensures Records(trace + [e], t, NextPhase(p, e, aborted))
  {
    hide Within, StartsAt, EndsAt, AnswersAt, NextPhase, Shaped, CallsOf, Records, OpenIsNext;
    RecordsParts(trace, t, p);
    var q := NextPhase(p, e, aborted);
    NextShaped(p, e, aborted);
    OtherPhase(p, e, aborted);
    if p.calls == [] { NoCallsYet(trace, t, CallsOf(p), CallsOf(q)); }
    WithinGrows(trace, t, t, e);
    StartsStay(trace, t, t, CallsOf(q), e);
    EndsStay(trace, t, t, CallsOf(q), p.calls, e);
    AnswersStay(trace, t, t, CallsOf(q), p.calls, q.calls, e);
    OtherOpen(p, q);
    RecordsFrom(trace + [e], t, q);
  }

  lemma NoCallsYet(trace: seq<Event>, t: Turn, calls: seq<ToolCall>, more: seq<ToolCall>)
    requires StartsAt(trace, t, calls) && EndsAt(trace, t, calls, []) && AnswersAt(trace, t, calls, [])
    ensures StartsAt(trace, t, more) && EndsAt(trace, t, more, []) && AnswersAt(trace, t, more, [])
  {
  }

  lemma StartBefore(trace: seq<Event>, t: Turn, calls: seq<ToolCall>, k: nat)
    requires StartsAt(trace, t, calls) && k < |t.starts|
    ensures t.starts[k] < |trace|
  {
  }

  lemma BeginsInside(trace: seq<Event>, t: Turn)
    requires Within(trace, t)
    ensures t.begin < |trace|
  {
  }

  predicate OpenIsNext(p: Phase)
    requires p.InTurn?
  {
    p.open.Some? && p.open.value.ToolResult? ==>
      p.results < |p.calls| <= |CallsOf(p)| && p.calls[p.results].Executed?
      && p.open.value == ResultOf(CallsOf(p)[p.results], p.calls[p.results])
  }

  lemma NothingOpen(q: Phase)
    requires q.InTurn? && q.open.None?
    ensures OpenIsNext(q)
  {
  }

  /** The end of another call leaves the open result alone. */
  lemma OpenStays(p: Phase, q: Phase)
    requires p.InTurn? && q.InTurn? && OpenIsNext(p) && q.open == p.open && CallsOf(q) == CallsOf(p)
    requires q.results == p.results && |q.calls| == |p.calls|
    requires forall k :: 0 <= k < |p.calls| && p.calls[k].Executed? ==> q.calls[k] == p.calls[k]
    ensures OpenIsNext(q)
  {
  }

  lemma OtherOpen(p: Phase, q: Phase)
    requires p.InTurn? && q.InTurn? && OpenIsNext(p) && q.calls == p.calls && q.results == p.results
    requires p.calls == [] || CallsOf(q) == CallsOf(p)
    requires q.open.Some? && q.open.value.ToolResult? && q.open != p.open ==>
               p.results < |p.calls| <= |CallsOf(p)| && p.calls[p.results].Executed?
               && q.open.value == ResultOf(CallsOf(p)[p.results], p.calls[p.results])
    ensures OpenIsNext(q)
  {
  }

  lemma RecordsParts(trace: seq<Event>, t: Turn, p: Phase)
    requires Records(trace, t, p)
    ensures p.InTurn? && Shaped(p) && Within(trace, t) && StartsAt(trace, t, CallsOf(p))
    ensures EndsAt(trace, t, CallsOf(p), p.calls) && AnswersAt(trace, t, CallsOf(p), p.calls)
    ensures |t.answers| == p.results && OpenIsNext(p)
    ensures |t.starts| == |t.ends| == |p.calls| <= |CallsOf(p)|
    ensures p.calls == [] || |CallsOf(p)| > 0
  {
  }

  lemma RecordsFrom(trace: seq<Event>, t: Turn, p: Phase)
    requires p.InTurn? && Shaped(p) && Within(trace, t) && StartsAt(trace, t, CallsOf(p))
    requires EndsAt(trace, t, CallsOf(p), p.calls) && AnswersAt(trace, t, CallsOf(p), p.calls)
    requires |t.answers| == p.results && OpenIsNext(p)
    ensures Records(trace, t, p)
  {
  }

  // The record of a whole trace.

  /** In every well-formed trace, the turn under way has a record. */
  lemma {:induction false} TurnUnderWay(trace: seq<Event>) returns (t: Turn)
    requires Follow(trace).phase.InTurn?
    ensures Records(trace, t, Follow(trace).phase)
  {
    hide Records, NextPhase;
    var front, e := trace[..|trace| - 1], trace[|trace| - 1];
    var p := Follow(front);
    assert trace == front + [e];
    InTurnBefore(p, e);
    if e.TurnStart? {
      t := Turn(|front|, [], [], []);
      FreshTurn(front, e, t, Follow(trace).phase);
    } else {
      t := TurnUnderWay(front);
      if e.ToolStart? {
        StartExtends(front, t, p.phase, e, p.aborted);
        t := Extend(t, e, |front|);
      } else if e.ToolEnd? {
        EndExtends(front, t, p.phase, e, p.aborted);
        t := Extend(t, e, |front|);
      } else if Answer(e) {
        AnswerExtends(front, t, p.phase, e, p.aborted);
        t := Extend(t, e, |front|);
      } else {
        OtherExtends(front, t, p.phase, e, p.aborted);
      }
    }
  }

  lemma InTurnBefore(p: Progress, e: Event)
    requires Next(p, e).phase.InTurn?
    ensures if e.TurnStart? then Next(p, e).phase == NEW_TURN else p.phase.InTurn? && !e.TurnEnd?
  {
  }

  lemma FreshTurn(front: seq<Event>, e: Event, t: Turn, p: Phase)
    requires e.TurnStart? && p == NEW_TURN && t == Turn(|front|, [], [], [])
    ensures Records(front + [e], t, p)
  {
  }

  /** What a turn that has ended did with call `k` of its reply: one start, then one end, then one result
      message, in the turn and with no second one of any of them. */
  predicate AnsweredOnce(trace: seq<Event>, t: Turn, last: nat, k: nat, call: ToolCall) {
    && t.begin < last < |trace| && k < |t.starts| && k < |t.ends| && k < |t.answers| && t.ends[k].Some?
    && t.begin < t.starts[k] < t.ends[k].value < t.answers[k] < last
    && trace[t.starts[k]] == ToolStart(k, call.id)
    && trace[t.ends[k].value].ToolEnd? && trace[t.ends[k].value].position == k
    && trace[t.answers[k]] == MessageEnd(ToolResult(call.id, trace[t.ends[k].value].outcome))
    && (forall m :: t.begin < m < last && trace[m].ToolStart? && trace[m].position == k ==> m == t.starts[k])
    && (forall m :: t.begin < m < last && trace[m].ToolEnd? && trace[m].position == k ==> m == t.ends[k].value)
  }

  /** A turn that has ended: its calls are answered one by one, in the order of the reply, and every result
      message of the turn is the answer to one of them. */
  predicate TurnAnswered(trace: seq<Event>, t: Turn, last: nat) {
    && t.begin < last < |trace| && trace[t.begin].TurnStart? && trace[last].TurnEnd? && trace[last].message.Assistant?
    && (forall m :: t.begin < m < last ==> !Boundary(trace[m]))
    && |t.starts| == |t.ends| == |t.answers| <= |trace[last].message.calls|
    && (forall k :: 0 <= k < |t.starts| ==> AnsweredOnce(trace, t, last, k, trace[last].message.calls[k]))
    && (forall j, k :: 0 <= j < k < |t.answers| ==> t.answers[j] < t.answers[k])
    && (forall m :: t.begin < m < last && Answer(trace[m]) ==> m in t.answers)
    && (forall m :: t.begin < m < last && trace[m].ToolStart? ==>
          trace[m].position < |t.starts| && m == t.starts[trace[m].position])
    && ResultsAnnounced(trace, t, last)
  }

  /** The end of the turn names exactly the results delivered. */
  predicate ResultsAnnounced(trace: seq<Event>, t: Turn, last: nat) {
    && last < |trace| && trace[last].TurnEnd? && |trace[last].results| == |t.answers|
    && (forall k :: 0 <= k < |t.answers| ==>
          t.answers[k] < last && trace[t.answers[k]] == MessageEnd(trace[last].results[k]))
  }

  /** Every call of the reply was started; or an abort was asked for before, and some were; or the reply had
      failed and none was. */
  ghost predicate Covered(trace: seq<Event>, last: nat)
    requires last < |trace| && trace[last].TurnEnd? && trace[last].message.Assistant?
  {
    var reply, n := trace[last].message, |trace[last].results|;
    if reply.stop == Failed || reply.stop == Aborted then n == 0
    else n == |reply.calls|
         || (0 < n < |reply.calls| && reply.stop != Length && exists m :: 0 <= m < last && trace[m].AbortRequested?)
  }

  lemma {:induction false} AbortWasAsked(trace: seq<Event>)
    ensures Follow(trace).aborted ==> exists m :: 0 <= m < |trace| && trace[m].AbortRequested?
  {
    hide NextPhase;
    if trace != [] {
      var front := trace[..|trace| - 1];
      AbortWasAsked(front);
      if Follow(front).aborted {
        var m :| 0 <= m < |front| && front[m].AbortRequested?;
        assert trace[m].AbortRequested?;
      } else if trace[|trace| - 1].AbortRequested? {
        assert trace[|trace| - 1].AbortRequested?;
      }
    }
  }

  lemma CoveredBy(trace: seq<Event>, last: nat, calls: seq<Execution>, aborted: bool)
    requires last < |trace| && trace[last].TurnEnd? && TurnComplete(trace[last].message, calls, aborted)
    requires |trace[last].results| == |calls|
    requires aborted ==> exists m :: 0 <= m < last && trace[..last][m].AbortRequested?
    ensures Covered(trace, last)
  {
    if aborted {
      var m :| 0 <= m < last && trace[..last][m].AbortRequested?;
      assert trace[m].AbortRequested?;
    }
  }

  /** Every turn that has ended answered its calls, one by one, and covers them. */
  lemma EndedTurn(trace: seq<Event>, last: nat) returns (t: Turn)
    requires last < |trace| && trace[last].TurnEnd? && Follow(trace[..last + 1]).phase != Malformed
    ensures TurnAnswered(trace, t, last) && Covered(trace, last)
  {
    var front, e := trace[..last], trace[last];
    assert trace[..last + 1] == front + [e];
    FollowPush(front, e);
    var p := Follow(front);
    assert p.phase.InTurn?;
    TurnEndPhase(p.phase, e, p.aborted);
    AbortWasAsked(front);
    hide Records, NextPhase, Follow, TurnAnswered, Covered, TurnComplete;
    t := TurnUnderWay(front);
    CoveredBy(trace, last, p.phase.calls, p.aborted);
    hide ResultsOf;
    TurnIsAnswered(trace, last, t, p.phase);
  }

  lemma TurnEndPhase(p: Phase, e: Event, aborted: bool)
    requires e.TurnEnd? && NextPhase(p, e, aborted) != Malformed
    ensures p.InTurn? && p.open.None? && p.reply == Some(e.message) && e.message.Assistant?
    ensures p.results == |p.calls| <= |e.message.calls| && AllExecuted(p.calls)
    ensures e.results == ResultsOf(e.message.calls, p.calls) && TurnComplete(e.message, p.calls, aborted)
  {
  }

  lemma CallIsAnswered(trace: seq<Event>, last: nat, t: Turn, calls: seq<ToolCall>, executions: seq<Execution>, k: nat)
    requires last < |trace| && t.begin < last && AllExecuted(executions) && |t.answers| == |executions|
    requires StartsAt(trace[..last], t, calls) && EndsAt(trace[..last], t, calls, executions)
    requires AnswersAt(trace[..last], t, calls, executions) && k < |t.starts|
    ensures AnsweredOnce(trace, t, last, k, calls[k])
  {
  }

  lemma ResultsAreAnnounced(trace: seq<Event>, last: nat, t: Turn, calls: seq<ToolCall>, executions: seq<Execution>)
    requires last < |trace| && trace[last].TurnEnd? && AllExecuted(executions) && |executions| <= |calls|
    requires trace[last].results == ResultsOf(calls, executions) && |t.answers| == |executions|
    requires AnswersAt(trace[..last], t, calls, executions)
    ensures ResultsAnnounced(trace, t, last)
  {
  }

  lemma TurnIsAnswered(trace: seq<Event>, last: nat, t: Turn, p: Phase)
    requires last < |trace| && trace[last].TurnEnd? && Records(trace[..last], t, p)
    requires trace[last].message.Assistant? && p.reply == Some(trace[last].message)
    requires p.results == |p.calls| <= |trace[last].message.calls| && AllExecuted(p.calls)
    requires trace[last].results == ResultsOf(trace[last].message.calls, p.calls)
    ensures TurnAnswered(trace, t, last)
  {
    hide Records, OpenIsNext, EndsAt, AnsweredOnce, ResultsAnnounced, ResultsOf, AllExecuted, Shaped;
    var front := trace[..last];
    RecordsParts(front, t, p);
    assert forall m :: 0 <= m < last ==> front[m] == trace[m];
    forall k | 0 <= k < |t.starts| ensures AnsweredOnce(trace, t, last, k, trace[last].message.calls[k]) {
      CallIsAnswered(trace, last, t, trace[last].message.calls, p.calls, k);
    }
    ResultsAreAnnounced(trace, last, t, trace[last].message.calls, p.calls);
  }

  /** Within a turn, only the end of the turn leads out of it. */
  lemma StaysInTurn(p: Progress, e: Event)
    requires p.phase.InTurn? && Next(p, e).phase != Malformed
    ensures if e.TurnEnd? then !Next(p, e).phase.InTurn? else Next(p, e).phase.InTurn? && !e.TurnStart?
  {
  }

  /** A turn under way at place `j` of a complete trace has an end. */
  lemma {:induction false} EndOfTurn(trace: seq<Event>, j: nat) returns (last: nat)
    requires j <= |trace| && Follow(trace).phase == Ended && Follow(trace[..j]).phase.InTurn?
    ensures j <= last < |trace| && trace[last].TurnEnd? && forall m :: j <= m < last ==> !Boundary(trace[m])
    decreases |trace| - j
  {
    hide NextPhase;
    assert trace[..|trace|] == trace && j < |trace|;
    PrefixFollows(trace, j + 1);
    assert trace[..j + 1] == trace[..j] + [trace[j]];
    FollowPush(trace[..j], trace[j]);
    hide Follow;
    StaysInTurn(Follow(trace[..j]), trace[j]);
    if trace[j].TurnEnd? {
      last := j;
    } else {
      last := EndOfTurn(trace, j + 1);
    }
  }

  lemma StartIsInTurn(p: Progress, e: Event)
    requires e.ToolStart? && Next(p, e).phase != Malformed
    ensures Next(p, e).phase.InTurn?
  {
  }

  /** Every start of a call in a complete trace belongs to a turn that has ended, in which the call has
      exactly one end and exactly one result message, one after the other, before the end of the turn. */
  lemma EveryStartIsAnswered(trace: seq<Event>, i: nat) returns (t: Turn, last: nat)
    requires Follow(trace).phase == Ended && i < |trace| && trace[i].ToolStart?
    ensures TurnAnswered(trace, t, last) && t.begin < i < last
    ensures trace[i].position < |t.starts| && t.starts[trace[i].position] == i
    ensures AnsweredOnce(trace, t, last, trace[i].position, trace[last].message.calls[trace[i].position])
  {
    hide NextPhase, Follow, TurnAnswered, AnsweredOnce, Boundary;
    PrefixFollows(trace, i + 1);
    assert trace[..i + 1] == trace[..i] + [trace[i]];
    FollowPush(trace[..i], trace[i]);
    StartIsInTurn(Follow(trace[..i]), trace[i]);
    last := EndOfTurn(trace, i + 1);
    PrefixFollows(trace, last + 1);
    t := EndedTurn(trace, last);
    StartBelongs(trace, t, last, i);
  }

  lemma StartBelongs(trace: seq<Event>, t: Turn, last: nat, i: nat)
    requires TurnAnswered(trace, t, last) && i < last && trace[i].ToolStart?
    requires forall m :: i < m < last ==> !Boundary(trace[m])
    ensures t.begin < i && trace[i].position < |t.starts| && t.starts[trace[i].position] == i
    ensures AnsweredOnce(trace, t, last, trace[i].position, trace[last].message.calls[trace[i].position])
  {
    hide AnsweredOnce;
    assert Boundary(trace[t.begin]);
  }

  /** For every run that is over: each call that was started has exactly one end and exactly one result. */
  lemma EveryRunAnswersItsCalls(messages: seq<Message>, m: Mode, n: Mode, inputs: seq<Input>, i: nat)
    returns (t: Turn, last: nat)
    requires var s := AgentLoop.Run(Start(messages, m, n), inputs);
             (s.stage.Finished? || s.stage.Idle?) && i < |s.trace| && s.trace[i].ToolStart?
    ensures var trace := AgentLoop.Run(Start(messages, m, n), inputs).trace;
            && TurnAnswered(trace, t, last) && t.begin < i < last
            && trace[i].position < |t.starts| && t.starts[trace[i].position] == i
            && AnsweredOnce(trace, t, last, trace[i].position, trace[last].message.calls[trace[i].position])
  {
    EveryRunIsWellFormed(messages, m, n, inputs);
    hide Sound, AgentLoop.Run, Follow, AnsweredOnce;
    t, last := EveryStartIsAnswered(AgentLoop.Run(Start(messages, m, n), inputs).trace, i);
  }

  /** For every run, at every moment: each turn that has ended answered its calls in the order of the reply,
      and covers all of them, or the first ones if an abort was asked for. */
  lemma EveryTurnCovers(messages: seq<Message>, m: Mode, n: Mode, inputs: seq<Input>, last: nat)
    returns (t: Turn)
    requires var s := AgentLoop.Run(Start(messages, m, n), inputs); last < |s.trace| && s.trace[last].TurnEnd?
    ensures var trace := AgentLoop.Run(Start(messages, m, n), inputs).trace;
            TurnAnswered(trace, t, last) && Covered(trace, last)
  {
    EveryRunIsWellFormed(messages, m, n, inputs);
    hide Sound, AgentLoop.Run, Follow, TurnAnswered, Covered;
    var trace := AgentLoop.Run(Start(messages, m, n), inputs).trace;
    PrefixFollows(trace, last + 1);
    t := EndedTurn(trace, last);
  }
}
