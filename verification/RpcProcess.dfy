/** Requests to a child process and the responses it writes to its standard output. */
module RpcProcess {
  import opened Framing
  import opened Text

  datatype Parsed = Response(id: Option<string>, payload: string) | UiRequest | SessionEvent

  datatype Outcome = Resolved(payload: string) | Rejected

  /** `table` holds the pending requests; promises are numbered as they are made, `ids[p]` being the
      request id of promise `p` and `outcomes[p]` what it settled with. */
  datatype Rpc = Rpc(exited: bool, table: map<string, nat>, ids: seq<string>, outcomes: map<nat, Outcome>)

  const START := Rpc(false, map[], [], map[])

  /** A promise keeps the first outcome it is given. */
  function Settle(r: Rpc, p: nat, o: Outcome): Rpc {
    if p in r.outcomes then r else r.(outcomes := r.outcomes[p := o])
  }

  function Send(r: Rpc, id: string): Rpc {
    if r.exited then r else r.(table := r.table[id := |r.ids|], ids := r.ids + [id])
  }

  function WriteFails(r: Rpc, p: nat): Rpc
    requires p < |r.ids|
  {
    Settle(r, p, Rejected).(table := r.table - {r.ids[p]})
  }

  function Handle(r: Rpc, m: Parsed): Rpc {
    if m.Response? && m.id.Some? && m.id.value != "" && m.id.value in r.table then
      Settle(r, r.table[m.id.value], Resolved(m.payload)).(table := r.table - {m.id.value})
    else r
  }

  function RejectAll(r: Rpc): Rpc {
    r.(table := map[], outcomes := (map p | p in r.table.Values :: Rejected) + r.outcomes)
  }

  datatype Input = Request(id: string) | WriteFailed(p: nat) | Message(m: Parsed) | Exit | Dispose

  function Step(r: Rpc, i: Input): Rpc {
    match i
    case Request(id) => Send(r, id)
    case WriteFailed(p) => if p < |r.ids| then WriteFails(r, p) else r
    case Message(m) => Handle(r, m)
    case Exit => RejectAll(r.(exited := true))
    case Dispose => RejectAll(r)
  }

  function Run(r: Rpc, inputs: seq<Input>): Rpc {
    if inputs == [] then r else Step(Run(r, inputs[..|inputs| - 1]), inputs[|inputs| - 1])
  }

  predicate Pending(r: Rpc, p: nat) {
    p < |r.ids| && r.ids[p] in r.table && r.table[r.ids[p]] == p
  }

  /** Every promise that was made is pending, or settled, and not both; none is pending once the process
      has exited. */
  ghost predicate Accounted(r: Rpc) {
    && (forall id :: id in r.table ==> r.table[id] < |r.ids| && r.ids[r.table[id]] == id && r.table[id] !in r.outcomes)
    && (forall p: nat :: p < |r.ids| && p !in r.outcomes ==> Pending(r, p))
    && (forall p: nat :: p in r.outcomes ==> p < |r.ids|)
    && (r.exited ==> r.table == map[])
  }

  /** The inputs that leave other requests alone: an id that is not pending, and a failed write of a
      request whose id is not pending for another one. */
  predicate Harmless(r: Rpc, i: Input) {
    && (i.Request? && !r.exited ==> i.id !in r.table)
    && (i.WriteFailed? && i.p < |r.ids| && r.ids[i.p] in r.table ==> r.table[r.ids[i.p]] == i.p)
  }

  lemma SendKeeps(r: Rpc, id: string)
    requires Accounted(r)
    ensures Accounted(Send(r, id)) <==> Harmless(r, Request(id))
  {
    var t := Send(r, id);
    if !r.exited {
      if id in r.table {
        var q := r.table[id];
        assert q < |t.ids| && q !in t.outcomes && !Pending(t, q);
      } else {
        forall p: nat | p < |t.ids| && p !in t.outcomes ensures Pending(t, p) {
          assert p < |r.ids| ==> Pending(r, p);
        }
      }
    }
  }

  lemma WriteFailsKeeps(r: Rpc, p: nat)
    requires Accounted(r) && p < |r.ids|
    ensures Accounted(WriteFails(r, p)) <==> Harmless(r, WriteFailed(p))
  {
    var t, id := WriteFails(r, p), r.ids[p];
    if Harmless(r, WriteFailed(p)) {
      forall q: nat | q < |t.ids| && q !in t.outcomes ensures Pending(t, q) {
        assert Pending(r, q);
      }
    } else {
      var q := r.table[id];
      assert q < |t.ids| && q !in t.outcomes && !Pending(t, q);
    }
  }

  lemma HandleKeeps(r: Rpc, m: Parsed)
    requires Accounted(r)
    ensures Accounted(Handle(r, m))
  {
    var t := Handle(r, m);
    forall q: nat | q < |t.ids| && q !in t.outcomes ensures Pending(t, q) {
      assert Pending(r, q);
    }
  }

  lemma RejectAllKeeps(r: Rpc)
    requires Accounted(r.(exited := false))
    ensures Accounted(RejectAll(r)) && forall p: nat :: p < |r.ids| ==> p in RejectAll(r).outcomes
  {
    var s, t := r.(exited := false), RejectAll(r);
    forall p: nat | p < |r.ids| ensures p in t.outcomes {
      if p !in r.outcomes {
        assert Pending(s, p);
        assert r.ids[p] in r.table && r.table[r.ids[p]] in r.table.Values;
      }
    }
  }

  /** The exact condition under which a step keeps the books in order. */
  lemma StepKeepsIff(r: Rpc, i: Input)
    requires Accounted(r)
    ensures Accounted(Step(r, i)) <==> Harmless(r, i)
  {
    match i {
      case Request(id) => SendKeeps(r, id);
      case WriteFailed(p) => if p < |r.ids| { WriteFailsKeeps(r, p); }
      case Message(m) => HandleKeeps(r, m);
      case Exit => RejectAllKeeps(r.(exited := true));
      case Dispose => RejectAllKeeps(r);
    }
  }

  predicate Distinct(ids: seq<string>) {
    forall j, k :: 0 <= j < k < |ids| ==> ids[j] != ids[k]
  }

  lemma DistinctIsHarmless(r: Rpc, i: Input)
    requires Accounted(r) && Distinct(Step(r, i).ids)
    ensures Harmless(r, i)
  {
    if i.Request? && !r.exited {
      var ids := Step(r, i).ids;
      forall q | 0 <= q < |r.ids| ensures r.ids[q] != i.id {
        assert ids[q] != ids[|r.ids|];
      }
    }
  }

  /** With distinct request ids, under any order of requests, responses, failed writes, disposal and exit:
      a request is pending exactly while it is sent and unsettled, and after exit all are settled. */
  lemma {:induction false} EveryRequestIsAccounted(inputs: seq<Input>)
    requires Distinct(Run(START, inputs).ids)
    ensures var r := Run(START, inputs);
            && Accounted(r)
            && (forall p: nat :: p < |r.ids| ==> (Pending(r, p) <==> p !in r.outcomes))
            && (r.exited ==> r.table == map[] && forall p: nat :: p < |r.ids| ==> p in r.outcomes)
  {
    if inputs != [] {
      var front, i := inputs[..|inputs| - 1], inputs[|inputs| - 1];
      var r := Run(START, front);
      assert r.ids <= Step(r, i).ids;
      EveryRequestIsAccounted(front);
      DistinctIsHarmless(r, i);
      StepKeepsIff(r, i);
    }
  }

  /** An outcome never changes; an exit is for ever. No hypothesis on the ids. */
  lemma {:induction false} OutcomesAreFinal(r: Rpc, inputs: seq<Input>, p: nat)
    ensures var t := Run(r, inputs);
            && (p in r.outcomes ==> p in t.outcomes && t.outcomes[p] == r.outcomes[p])
            && (r.exited ==> t.exited && t.ids == r.ids)
            && (r.exited && r.table == map[] ==> t.table == map[])
  {
    if inputs != [] {
      OutcomesAreFinal(r, inputs[..|inputs| - 1], p);
    }
  }

  /** A pending request settles with the payload of the response to it, and no other request changes. */
  lemma ResponseSettles(r: Rpc, p: nat, payload: string)
    requires Accounted(r) && Pending(r, p) && r.ids[p] != ""
    ensures var t := Handle(r, Response(Some(r.ids[p]), payload));
            && t.outcomes == r.outcomes[p := Resolved(payload)] && !Pending(t, p)
            && forall q: nat :: q != p ==> Pending(t, q) == Pending(r, q)
  {
  }

  /** A failed write, the exit and the disposal reject what is unsettled: nothing is resolved by them. */
  lemma FailuresReject(r: Rpc, p: nat)
    requires p < |r.ids| && p !in r.outcomes
    ensures Step(r, WriteFailed(p)).outcomes == r.outcomes[p := Rejected]
    ensures Pending(r, p) ==> forall i :: i == Exit || i == Dispose ==>
              p in Step(r, i).outcomes && Step(r, i).outcomes[p] == Rejected
  {
    if Pending(r, p) {
      assert r.table[r.ids[p]] in r.table.Values;
    }
  }

  /** The table holds each request under its own id. */
  predicate Named(r: Rpc) {
    forall id :: id in r.table ==> r.table[id] < |r.ids| && r.ids[r.table[id]] == id
  }

  lemma StepNamed(r: Rpc, i: Input)
    requires Named(r)
    ensures Named(Step(r, i)) && r.ids <= Step(r, i).ids
  {
  }

  lemma {:induction false} RunNamed(inputs: seq<Input>)
    ensures Named(Run(START, inputs))
  {
    if inputs != [] {
      RunNamed(inputs[..|inputs| - 1]);
      StepNamed(Run(START, inputs[..|inputs| - 1]), inputs[|inputs| - 1]);
    }
  }

  /** The input that can give promise `p` that outcome. */
  ghost predicate Causes(r: Rpc, i: Input, p: nat, o: Outcome) {
    && p < |r.ids| && p !in r.outcomes
    && match o
       case Resolved(payload) => r.ids[p] != "" && Pending(r, p) && i == Message(Response(Some(r.ids[p]), payload))
       case Rejected => i == WriteFailed(p) || ((i == Exit || i == Dispose) && Pending(r, p))
  }

  lemma StepCauses(r: Rpc, i: Input, p: nat)
    requires Named(r) && p !in r.outcomes && p in Step(r, i).outcomes
    ensures Causes(r, i, p, Step(r, i).outcomes[p])
  {
    if i == Exit || i == Dispose {
      var id :| id in r.table && r.table[id] == p;
    }
  }

  /** For every outcome in every run: a request is resolved only by the response to it, with its payload, and
      rejected only because its write failed, or by an exit or a disposal while it was pending. */
  lemma {:induction false} EveryOutcomeHasCause(inputs: seq<Input>, p: nat) returns (j: nat)
    requires p in Run(START, inputs).outcomes
    ensures j < |inputs| && Causes(Run(START, inputs[..j]), inputs[j], p, Run(START, inputs).outcomes[p])
  {
    hide Causes, Named, Step;
    assert inputs != [];
    var front, last := inputs[..|inputs| - 1], inputs[|inputs| - 1];
    RunNamed(front);
    if p in Run(START, front).outcomes {
      j := EveryOutcomeHasCause(front, p);
      assert front[..j] == inputs[..j];
      OutcomeStays(Run(START, front), last, p);
    } else {
      j := |front|;
      StepCauses(Run(START, front), last, p);
    }
  }

  lemma OutcomeStays(r: Rpc, i: Input, p: nat)
    requires p in r.outcomes
    ensures p in Step(r, i).outcomes && Step(r, i).outcomes[p] == r.outcomes[p]
  {
  }

  /** A second request with the id of a pending one orphans the first: it is unsettled, not pending, and
      even the exit of the process does not settle it. */
  lemma ReusedIdIsLost(id: string)
    ensures var r := Run(START, [Request(id), Request(id), Exit]);
            r.exited && |r.ids| == 2 && 0 !in r.outcomes && 1 in r.outcomes && !Accounted(r)
  {
    var a, b, c := [Request(id)], [Request(id), Request(id)], [Request(id), Request(id), Exit];
    assert c[..2] == b && b[..1] == a && a[..0] == [];
    assert Run(START, a) == Send(START, id);
    var r := Send(Send(START, id), id);
    assert Run(START, b) == r;
    assert r.table == map[id := 1];
    assert 1 in r.table.Values by { assert r.table[id] == 1; }
    assert Run(START, c) == RejectAll(r.(exited := true));
    assert !Pending(Run(START, c), 0);
  }

  // Standard output.

  /** The messages in complete lines: trimmed, blank ones skipped. */
  function Cleaned(lines: seq<string>): seq<string> {
    if lines == [] then []
    else
      var line := Trim(lines[|lines| - 1]);
      if line == "" then Cleaned(lines[..|lines| - 1]) else Cleaned(lines[..|lines| - 1]) + [line]
  }

  function HandleLines(r: Rpc, lines: seq<string>, parse: string -> Parsed): Rpc {
    if lines == [] then r else Handle(HandleLines(r, lines[..|lines| - 1], parse), parse(lines[|lines| - 1]))
  }

  /** What a chunk of standard output does. */
  function Receive(r: Rpc, held: string, chunk: string, parse: string -> Parsed): Rpc {
    HandleLines(r, Cleaned(Lines(held + chunk)), parse)
  }

  function ReceiveAll(r: Rpc, chunks: seq<string>, parse: string -> Parsed): Rpc {
    if chunks == [] then r
    else
      var front := chunks[..|chunks| - 1];
      Receive(ReceiveAll(r, front, parse), Held(front), chunks[|chunks| - 1], parse)
  }

  lemma {:induction false} CleanedAppend(a: seq<string>, b: seq<string>)
    ensures Cleaned(a + b) == Cleaned(a) + Cleaned(b)
  {
    if b == [] {
      assert a + b == a && Cleaned(a) + [] == Cleaned(a);
    } else {
      CleanedAppend(a, b[..|b| - 1]);
      assert (a + b)[..|a + b| - 1] == a + b[..|b| - 1];
    }
  }

  lemma {:induction false} HandleAppend(r: Rpc, a: seq<string>, b: seq<string>, parse: string -> Parsed)
    ensures HandleLines(r, a + b, parse) == HandleLines(HandleLines(r, a, parse), b, parse)
  {
    if b == [] {
      assert a + b == a;
    } else {
      HandleAppend(r, a, b[..|b| - 1], parse);
      assert (a + b)[..|a + b| - 1] == a + b[..|b| - 1];
    }
  }

  /** What is done depends on the output as a whole, not on how it arrived. */
  lemma {:induction false} ChunksDoNotMatter(r: Rpc, chunks: seq<string>, parse: string -> Parsed)
    ensures ReceiveAll(r, chunks, parse) == HandleLines(r, Cleaned(Lines(Flatten(chunks))), parse)
  {
    if chunks != [] {
      var front, last := chunks[..|chunks| - 1], chunks[|chunks| - 1];
      ChunksDoNotMatter(r, front, parse);
      ChunkingIsInvisible(front);
      LinesAppend(Flatten(front), last);
      CleanedAppend(Lines(Flatten(front)), Lines(Held(front) + last));
      HandleAppend(r, Cleaned(Lines(Flatten(front))), Cleaned(Lines(Held(front) + last)), parse);
    }
  }

  lemma CleanedPush(a: seq<string>, line: string)
    ensures Cleaned(a + [line]) == if Trim(line) == "" then Cleaned(a) else Cleaned(a) + [Trim(line)]
  {
    assert (a + [line])[..|a|] == a;
  }

  lemma HandleNothing(r: Rpc, parse: string -> Parsed)
    ensures HandleLines(r, Cleaned([]), parse) == r
  {
  }

  lemma HandlePush(r: Rpc, a: seq<string>, line: string, parse: string -> Parsed)
    ensures HandleLines(r, a + [line], parse) == Handle(HandleLines(r, a, parse), parse(line))
  {
    assert (a + [line])[..|a|] == a;
  }

  /** Taking the first line off the buffer. */
  lemma TakeLine(all: string, seen: seq<string>, buffer: string, i: nat)
    requires i < |buffer| && buffer[i] == '\n' && forall k :: 0 <= k < i ==> buffer[k] != '\n'
    requires Lines(all) == seen + Lines(buffer) && Rest(all) == Rest(buffer)
    ensures Lines(all) == (seen + [buffer[..i]]) + Lines(buffer[i + 1..]) && Rest(all) == Rest(buffer[i + 1..])
  {
    hide Lines, Rest;
    FirstLine(buffer, i);
    assert seen + ([buffer[..i]] + Lines(buffer[i + 1..])) == (seen + [buffer[..i]]) + Lines(buffer[i + 1..]);
  }

  lemma NothingToReject(r: Rpc)
    requires r.table == map[]
    ensures RejectAll(r) == r
  {
    assert r.table.Values == {};
  }

  lemma RejectOne(r: Rpc, id: string)
    requires id in r.table
    ensures RejectAll(Settle(r, r.table[id], Rejected).(table := r.table - {id})) == RejectAll(r)
  {
    var p, t := r.table[id], Settle(r, r.table[id], Rejected).(table := r.table - {id});
    assert RejectAll(t).outcomes == RejectAll(r).outcomes by {
      forall q: nat ensures q in RejectAll(t).outcomes <==> q in RejectAll(r).outcomes {
        if q in r.table.Values && q != p {
          var j :| j in r.table && r.table[j] == q;
          assert j in t.table && t.table[j] == q;
          assert q in t.table.Values;
        }
        if q in t.table.Values {
          var j :| j in t.table && t.table[j] == q;
          assert j in r.table && r.table[j] in r.table.Values;
        }
        assert p in r.table.Values;
      }
    }
  }

  class Instance {
    var exited: bool
    var stdoutBuffer: string
    var pendingRequests: map<string, nat>
    ghost var ids: seq<string>
    ghost var outcomes: map<nat, Outcome>
    var made: nat

    ghost predicate Valid()
      reads this
    {
      made == |ids|
    }

    ghost function Model(): Rpc
      reads this
    {
      Rpc(exited, pendingRequests, ids, outcomes)
    }

    constructor ()
      ensures Valid() && Model() == START && stdoutBuffer == ""
    {
      exited, stdoutBuffer, pendingRequests, ids, outcomes, made := false, "", map[], [], map[], 0;
    }

    ghost method SettlePromise(p: nat, o: Outcome)
      modifies this`outcomes
      ensures Model() == Settle(old(Model()), p, o)
    {
      if p !in outcomes { outcomes := outcomes[p := o]; }
    }

    /** Refuses once the process has exited; else answers the promise of the response. */
    method SendRequest(id: string) returns (promise: Option<nat>)
      requires Valid()
      modifies this
      ensures Valid() && Model() == Step(old(Model()), Request(id)) && stdoutBuffer == old(stdoutBuffer)
      ensures promise == if old(exited) then None else Some(|old(ids)|)
    {
      if exited {
        return None;
      }
      promise := Some(made);
      pendingRequests := pendingRequests[id := made];
      ids, made := ids + [id], made + 1;
    }

    /** The write of a request failed. */
    method WriteError(id: string, promise: nat)
      requires Valid() && promise < |ids| && ids[promise] == id
      modifies this
      ensures Valid() && Model() == Step(old(Model()), WriteFailed(promise)) && stdoutBuffer == old(stdoutBuffer)
      ensures pendingRequests == old(pendingRequests) - {id}
      ensures outcomes == if promise in old(outcomes) then old(outcomes) else old(outcomes)[promise := Rejected]
    {
      pendingRequests := pendingRequests - {id};
      SettlePromise(promise, Rejected);
    }

    method HandleLine(m: Parsed)
      requires Valid()
      modifies this
      ensures Valid() && Model() == Step(old(Model()), Message(m)) && stdoutBuffer == old(stdoutBuffer)
    {
      if m.Response? && m.id.Some? && m.id.value != "" && m.id.value in pendingRequests {
        var pending := pendingRequests[m.id.value];
        pendingRequests := pendingRequests - {m.id.value};
        SettlePromise(pending, Resolved(m.payload));
      }
    }

    /** The complete lines are handled, the unfinished one is kept. */
    method OnData(chunk: string, parse: string -> Parsed)
      requires Valid()
      modifies this
      ensures Valid() && Model() == Receive(old(Model()), old(stdoutBuffer), chunk, parse)
      ensures stdoutBuffer == Rest(old(stdoutBuffer) + chunk)
    {
      hide Lines, Rest, Cleaned, HandleLines, Handle;
      stdoutBuffer := stdoutBuffer + chunk;
      ghost var all, before := stdoutBuffer, Model();
      ghost var seen: seq<string> := [];
      assert [] + Lines(all) == Lines(all);
      assert before == old(Model());
      assert Model() == HandleLines(before, Cleaned(seen), parse) by { HandleNothing(before, parse); }
      while '\n' in stdoutBuffer
        invariant Valid()
        invariant Lines(all) == seen + Lines(stdoutBuffer) && Rest(all) == Rest(stdoutBuffer)
        invariant Model() == HandleLines(before, Cleaned(seen), parse)
        decreases |stdoutBuffer|
      {
        var newlineIndex := FirstLineFeed(stdoutBuffer);
        var line := Trim(stdoutBuffer[..newlineIndex]);
        TakeLine(all, seen, stdoutBuffer, newlineIndex);
        CleanedPush(seen, stdoutBuffer[..newlineIndex]);
        HandlePush(before, Cleaned(seen), line, parse);
        seen := seen + [stdoutBuffer[..newlineIndex]];
        stdoutBuffer := stdoutBuffer[newlineIndex + 1..];
        if line != "" {
          HandleLine(parse(line));
        }
      }
      NoLine(stdoutBuffer);
      assert seen + [] == seen;
    }

    method RejectAllPending()
      requires Valid()
      modifies this
      ensures Valid() && Model() == RejectAll(old(Model())) && stdoutBuffer == old(stdoutBuffer)
    {
      hide RejectAll;
      while pendingRequests != map[]
        invariant Valid() && stdoutBuffer == old(stdoutBuffer) && RejectAll(Model()) == RejectAll(old(Model()))
        decreases |pendingRequests|
      {
        var id :| id in pendingRequests;
        RejectOne(Model(), id);
        ghost var promise := pendingRequests[id];
        pendingRequests := pendingRequests - {id};
        SettlePromise(promise, Rejected);
      }
      NothingToReject(Model());
    }

    method OnExit()
      requires Valid()
      modifies this
      ensures Valid() && Model() == Step(old(Model()), Exit) && exited && pendingRequests == map[]
    {
      exited := true;
      RejectAllPending();
    }

    /** Rejects what is pending; the exit follows from the kill unless it has happened. */
    method DisposeProcess() returns (kill: bool)
      requires Valid()
      modifies this
      ensures Valid() && Model() == Step(old(Model()), Dispose) && kill == !exited
    {
      RejectAllPending();
      kill := !exited;
    }
  }
}
