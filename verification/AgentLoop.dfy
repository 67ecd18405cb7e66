/** The agent loop: one run emits lifecycle events, grows a transcript and executes tool
    calls one after another or side by side.  While the event sink accepts, every method
    does exactly what the script of the run comes to; it gives up only when the sink has
    refused an event or the script fails it. */
module AgentLoop {
  import opened Messages
  import opened AgentMessages
  import opened LoopEvents
  import opened LoopScript

  predicate InRange(positions: seq<nat>, n: nat) {
    forall j | 0 <= j < |positions| :: positions[j] < n
  }

  /** The ids of the calls at the given positions. */
  function OpenIDs(calls: seq<Block>, positions: seq<nat>): (ids: seq<string>)
    requires AreCalls(calls) && InRange(positions, |calls|)
    ensures |ids| == |positions|
    ensures forall j | 0 <= j < |ids| :: ids[j] == calls[positions[j]].id
  {
    seq(|positions|, j requires 0 <= j < |positions| => calls[positions[j]].id)
  }

  function Remove(positions: seq<nat>, j: nat): (rest: seq<nat>)
    requires j < |positions|
    ensures forall k :: k in rest ==> k in positions
    ensures forall k :: k in positions ==> k in rest || k == positions[j]
  {
    positions[..j] + positions[j + 1..]
  }

  lemma OpenOne(calls: seq<Block>, positions: seq<nat>, k: nat)
    requires AreCalls(calls) && k < |calls| && InRange(positions, |calls|)
    ensures multiset(OpenIDs(calls, positions + [k])) == multiset(OpenIDs(calls, positions)) + multiset{calls[k].id}
  {
    assert OpenIDs(calls, positions + [k]) == OpenIDs(calls, positions) + [calls[k].id];
  }

  lemma CloseOne(calls: seq<Block>, positions: seq<nat>, j: nat)
    requires AreCalls(calls) && j < |positions| && InRange(positions, |calls|)
    ensures calls[positions[j]].id in OpenIDs(calls, positions)
    ensures multiset(OpenIDs(calls, Remove(positions, j)))
         == multiset(OpenIDs(calls, positions)) - multiset{calls[positions[j]].id}
  {
    var ids := OpenIDs(calls, positions);
    assert OpenIDs(calls, Remove(positions, j)) == ids[..j] + ids[j + 1..];
    assert ids == ids[..j] + [ids[j]] + ids[j + 1..];
  }

  lemma Reclose(open: multiset<string>, id: string)
    ensures open + multiset{id} - multiset{id} == open
  {
  }

  function Await(waiting: seq<nat>, i: nat, p: Prepared): seq<nat> {
    if p.Ready? then waiting + [i] else waiting
  }

  /** `waiting` lists the entries that still have to be executed. */
  ghost predicate Waits(entries: seq<Prepared>, waiting: seq<nat>) {
    && (forall j | 0 <= j < |waiting| :: waiting[j] < |entries| && entries[waiting[j]].Ready?)
    && (forall k | 0 <= k < |entries| && entries[k].Ready? :: k in waiting)
  }

  lemma AddEntry(calls: seq<Block>, entries: seq<Prepared>, waiting: seq<nat>, p: Prepared)
    requires AreCalls(calls) && |entries| < |calls| && Waits(entries, waiting)
    requires p.call == calls[|entries|]
    ensures Waits(entries + [p], Await(waiting, |entries|, p))
    ensures multiset(OpenIDs(calls, Await(waiting, |entries|, p)))
         == if p.Ready? then multiset(OpenIDs(calls, waiting)) + multiset{p.call.id}
             else multiset(OpenIDs(calls, waiting))
  {
    if p.Ready? { OpenOne(calls, waiting, |entries|); }
  }

  /** From here the batch comes to `goal`: the entries so far, and what the calls from `i` on
      still give unless the batch was found cancelled. */
  ghost predicate GoesTo(w: World, calls: seq<Block>, done: seq<Prepared>, i: nat, checks: nat, cancelled: bool,
                         goal: (seq<Prepared>, nat))
    requires AreCalls(calls) && i <= |calls|
  {
    goal == if cancelled then (done, checks)
            else var rest := Batch(w.box, calls[i..], w.cancelAt, checks); (done + rest.0, rest.1)
  }

  lemma BatchStarts(w: World, calls: seq<Block>, n: nat)
    requires AreCalls(calls)
    ensures GoesTo(w, calls, [], 0, n, false, Batch(w.box, calls, w.cancelAt, n))
  {
    assert calls[0..] == calls;
    assert [] + Batch(w.box, calls, w.cancelAt, n).0 == Batch(w.box, calls, w.cancelAt, n).0;
  }

  lemma BatchUnfolds(w: World, calls: seq<Block>, n: nat, p: Prepared, m: nat)
    requires AreCalls(calls) && calls != [] && (p, m) == Prepare(w.box, calls[0], w.cancelAt, n)
    ensures Batch(w.box, calls, w.cancelAt, n) ==
            if Cancelling(w.cancelAt, m) then ([p], m + 1)
            else var rest := Batch(w.box, calls[1..], w.cancelAt, m + 1); ([p] + rest.0, rest.1)
  {
  }

  lemma BatchSteps(w: World, calls: seq<Block>, done: seq<Prepared>, i: nat, checks: nat, p: Prepared, m: nat,
                   goal: (seq<Prepared>, nat))
    requires AreCalls(calls) && i < |calls| && GoesTo(w, calls, done, i, checks, false, goal)
    requires (p, m) == Prepare(w.box, calls[i], w.cancelAt, checks)
    ensures GoesTo(w, calls, done + [p], i + 1, m + 1, Cancelling(w.cancelAt, m), goal)
  {
    assert calls[i..][0] == calls[i] && calls[i..][1..] == calls[i + 1..];
    BatchUnfolds(w, calls[i..], checks, p, m);
    if !Cancelling(w.cancelAt, m) {
      var rest := Batch(w.box, calls[i + 1..], w.cancelAt, m + 1);
      assert done + ([p] + rest.0) == done + [p] + rest.0;
    }
  }

  lemma BatchIsDone(w: World, calls: seq<Block>, done: seq<Prepared>, i: nat, checks: nat, cancelled: bool,
                    goal: (seq<Prepared>, nat))
    requires AreCalls(calls) && i <= |calls| && GoesTo(w, calls, done, i, checks, cancelled, goal)
    ensures done <= goal.0 && (cancelled || i == |calls| ==> goal == (done, checks))
  {
    if !cancelled && i == |calls| { assert calls[|calls|..] == [] && done + [] == done; }
  }

  /** The result messages of a batch: one for each call it gets to, in call order. */
  function Results(w: World, calls: seq<Block>, entries: seq<Prepared>): seq<Message>
    requires AreCalls(calls) && |entries| <= |calls|
  {
    ResultMessages(calls, Outcomes(w.box, entries), w.now)
  }

  lemma ResultsGrow(w: World, calls: seq<Block>, entries: seq<Prepared>, p: Prepared)
    requires AreCalls(calls) && |entries| < |calls|
    ensures Results(w, calls, entries + [p])
         == Results(w, calls, entries) + [ResultMessage(calls[|entries|], OutcomeOf(w.box, p), w.now)]
  {
  }

  lemma ResultsPrefix(w: World, calls: seq<Block>, entries: seq<Prepared>, more: seq<Prepared>)
    requires AreCalls(calls) && entries <= more && |more| <= |calls|
    ensures Results(w, calls, entries) <= Results(w, calls, more)
  {
  }

  /** What the executions of a batch report at their ends, in call order. */
  function Reports(w: World, calls: seq<Block>, entries: seq<Prepared>): (reports: seq<(string, Outcome)>)
    requires AreCalls(calls) && |entries| <= |calls|
    ensures |reports| == |entries|
    ensures forall k | 0 <= k < |reports| :: reports[k] == (calls[k].id, OutcomeOf(w.box, entries[k]))
  {
    seq(|entries|, k requires 0 <= k < |entries| => (calls[k].id, OutcomeOf(w.box, entries[k])))
  }

  /** The reports still to come from the entries at these positions. */
  function Due(w: World, calls: seq<Block>, entries: seq<Prepared>, positions: seq<nat>)
    : (reports: seq<(string, Outcome)>)
    requires AreCalls(calls) && |entries| <= |calls| && InRange(positions, |entries|)
    ensures |reports| == |positions|
    ensures forall j | 0 <= j < |reports| :: reports[j] == Reports(w, calls, entries)[positions[j]]
  {
    seq(|positions|, j requires 0 <= j < |positions| => Reports(w, calls, entries)[positions[j]])
  }

  /** Every entry was started in call order, and all but the waiting ones have reported once. */
  ghost predicate Underway(before: Tally, now: Tally, w: World, calls: seq<Block>, entries: seq<Prepared>,
                           waiting: seq<nat>)
    requires AreCalls(calls) && |entries| <= |calls| && InRange(waiting, |entries|)
  {
    && now.starts == before.starts + CallIDs(calls[..|entries|])
    && multiset(now.ends) + multiset(Due(w, calls, entries, waiting))
       == multiset(before.ends) + multiset(Reports(w, calls, entries))
  }

  /** Every entry was started once, in call order, and reported its own outcome once, in any order. */
  ghost predicate EachRanOnce(before: Tally, now: Tally, w: World, calls: seq<Block>, entries: seq<Prepared>)
    requires AreCalls(calls) && |entries| <= |calls|
  {
    && now.starts == before.starts + CallIDs(calls[..|entries|])
    && multiset(now.ends) == multiset(before.ends) + multiset(Reports(w, calls, entries))
  }

  lemma StartsGrow(calls: seq<Block>, starts: seq<string>, n: nat)
    requires AreCalls(calls) && n < |calls|
    ensures starts + CallIDs(calls[..n]) + [calls[n].id] == starts + CallIDs(calls[..n + 1])
  {
    assert calls[..n + 1] == calls[..n] + [calls[n]];
  }

  lemma ReportsGrow(w: World, calls: seq<Block>, entries: seq<Prepared>, p: Prepared)
    requires AreCalls(calls) && |entries| < |calls|
    ensures Reports(w, calls, entries + [p])
         == Reports(w, calls, entries) + [(calls[|entries|].id, OutcomeOf(w.box, p))]
  {
  }

  /** One call was started and has reported. */
  function RanOne(before: Tally, id: string, outcome: Outcome): Tally {
    Tally(before.starts + [id], before.ends + [(id, outcome)])
  }

  /** One call was started; it has reported too unless it waits to be executed. */
  function StartedOne(before: Tally, w: World, id: string, p: Prepared): Tally {
    Tally(before.starts + [id], before.ends + (if p.Ready? then [] else [(id, OutcomeOf(w.box, p))]))
  }

  /** The calls of a batch ran one after another. */
  function RanInTurn(before: Tally, w: World, calls: seq<Block>, entries: seq<Prepared>): Tally
    requires AreCalls(calls) && |entries| <= |calls|
  {
    Tally(before.starts + CallIDs(calls[..|entries|]), before.ends + Reports(w, calls, entries))
  }

  lemma RanInTurnGrows(before: Tally, w: World, calls: seq<Block>, entries: seq<Prepared>, p: Prepared)
    requires AreCalls(calls) && |entries| < |calls|
    ensures RanInTurn(before, w, calls, entries + [p])
         == RanOne(RanInTurn(before, w, calls, entries), calls[|entries|].id, OutcomeOf(w.box, p))
  {
    StartsGrow(calls, before.starts, |entries|);
    ReportsGrow(w, calls, entries, p);
  }

  lemma RanNone(before: Tally, w: World, calls: seq<Block>)
    requires AreCalls(calls)
    ensures RanInTurn(before, w, calls, []) == before
  {
    assert CallIDs(calls[..0]) == [] && Reports(w, calls, []) == [];
  }

  lemma InTurnEachRanOnce(before: Tally, w: World, calls: seq<Block>, entries: seq<Prepared>)
    requires AreCalls(calls) && |entries| <= |calls|
    ensures EachRanOnce(before, RanInTurn(before, w, calls, entries), w, calls, entries)
  {
  }

  lemma NoneUnderway(before: Tally, w: World, calls: seq<Block>)
    requires AreCalls(calls)
    ensures Underway(before, before, w, calls, [], [])
  {
    assert before.starts + CallIDs(calls[..0]) == before.starts;
    assert Due(w, calls, [], []) == [] && Reports(w, calls, []) == [];
  }

  lemma DueGrows(w: World, calls: seq<Block>, entries: seq<Prepared>, waiting: seq<nat>, p: Prepared)
    requires AreCalls(calls) && |entries| < |calls| && InRange(waiting, |entries|)
    ensures var due, more := Due(w, calls, entries, waiting),
                             Due(w, calls, entries + [p], Await(waiting, |entries|, p));
            more == if p.Ready? then due + [(calls[|entries|].id, OutcomeOf(w.box, p))] else due
  {
  }

  lemma OneMoreSums<T>(a: multiset<T>, b: multiset<T>, c: multiset<T>, d: multiset<T>, r: T)
    requires a + b == c + d
    ensures a + (b + multiset{r}) == c + (d + multiset{r})
    ensures (a + multiset{r}) + b == c + (d + multiset{r})
  {
    assert a + (b + multiset{r}) == a + b + multiset{r} == (a + multiset{r}) + b;
    assert c + (d + multiset{r}) == c + d + multiset{r};
  }

  /** A call that was started either waits or has reported. */
  lemma OneMoreUnderway(before: Tally, now: Tally, w: World, calls: seq<Block>, entries: seq<Prepared>,
                        waiting: seq<nat>, p: Prepared)
    requires AreCalls(calls) && |entries| < |calls| && InRange(waiting, |entries|)
    requires Underway(before, now, w, calls, entries, waiting)
    ensures Underway(before, StartedOne(now, w, calls[|entries|].id, p), w, calls, entries + [p],
                     Await(waiting, |entries|, p))
  {
    StartsGrow(calls, before.starts, |entries|);
    ReportsGrow(w, calls, entries, p);
    DueGrows(w, calls, entries, waiting, p);
    hide Due, Reports, CallIDs, OutcomeOf;
    var reports, due := Reports(w, calls, entries), Due(w, calls, entries, waiting);
    var r := (calls[|entries|].id, OutcomeOf(w.box, p));
    OneMoreSums(multiset(now.ends), multiset(due), multiset(before.ends), multiset(reports), r);
    assert multiset(reports + [r]) == multiset(reports) + multiset{r};
    if p.Ready? {
      assert multiset(due + [r]) == multiset(due) + multiset{r};
    } else {
      assert multiset(now.ends + [r]) == multiset(now.ends) + multiset{r};
    }
  }

  /** A report takes its entry off those that wait. */
  lemma OneLessUnderway(before: Tally, now: Tally, next: Tally, w: World, calls: seq<Block>, entries: seq<Prepared>,
                        running: seq<nat>, j: nat)
    requires AreCalls(calls) && |entries| <= |calls| && InRange(running, |entries|) && j < |running|
    requires Underway(before, now, w, calls, entries, running)
    requires next.starts == now.starts
    requires next.ends == now.ends + [(calls[running[j]].id, OutcomeOf(w.box, entries[running[j]]))]
    ensures Underway(before, next, w, calls, entries, Remove(running, j))
  {
    var due := Due(w, calls, entries, running);
    assert Due(w, calls, entries, Remove(running, j)) == due[..j] + due[j + 1..];
    assert due == due[..j] + [due[j]] + due[j + 1..];
  }

  lemma NoneLeftUnderway(before: Tally, now: Tally, w: World, calls: seq<Block>, entries: seq<Prepared>)
    requires AreCalls(calls) && |entries| <= |calls| && Underway(before, now, w, calls, entries, [])
    ensures EachRanOnce(before, now, w, calls, entries)
  {
    assert Due(w, calls, entries, []) == [];
  }

  lemma OutcomesGrow(box: ToolBox, entries: seq<Prepared>, p: Prepared)
    ensures Outcomes(box, entries + [p]) == Outcomes(box, entries) + [OutcomeOf(box, p)]
  {
  }

  lemma GrowResults(before: seq<AgentMessage>, results: seq<Message>, m: Message)
    ensures before + LLMs(results + [m]) == before + LLMs(results) + [LLM(m)]
  {
    assert LLMs(results + [m]) == LLMs(results) + [LLM(m)];
  }

  lemma PrefixOfResults(before: seq<AgentMessage>, results: seq<Message>, full: seq<Message>)
    requires results <= full
    ensures before + LLMs(results) <= before + LLMs(full)
  {
  }

  lemma ReplyAndResultsEnd(before: seq<AgentMessage>, m: Message, results: seq<Message>)
    requires EndsWith(before, [LLM(m)])
    ensures EndsWith(before + LLMs(results), [LLM(m)] + LLMs(results))
  {
    assert before == before[..|before| - 1] + [LLM(m)];
  }

  /** Everything the run is given delivers, and every message has a provider form. */
  predicate WorldDelivers(context: seq<AgentMessage>, prompts: seq<AgentMessage>, initial: Fetch,
                          script: seq<TurnScript>)
  {
    && AllConvertible(context) && AllConvertible(prompts) && Delivers(initial)
    && forall k | 0 <= k < |script| :: TurnDelivers(script[k])
  }

  predicate IsReply(m: AgentMessage) {
    m.LLM? && m.message.role.Assistant?
  }

  class AgentRun {
    const world: World
    const emitLimit: Option<nat>   // the sink refuses once it holds this many events

    var context: seq<AgentMessage>
    var newMessages: seq<AgentMessage>
    var events: seq<Event>
    var requests: seq<seq<Message>>
    var checks: nat

    constructor (world: World, emitLimit: Option<nat>, context: seq<AgentMessage>)
      ensures this.world == world && this.emitLimit == emitLimit && Log() == Journal(context, [], [], 0) && events == []
    {
      this.world, this.emitLimit := world, emitLimit;
      this.context, newMessages, events, requests, checks := context, [], [], [], 0;
    }

    function Log(): Journal reads this {
      Journal(context, newMessages, requests, checks)
    }

    ghost predicate At(stage: Stage, ended: seq<AgentMessage>) reads this`events {
      Trace(events) == Phase(stage, ended)
    }

    /** No event broke the grammar. */
    ghost predicate WellFormed() reads this`events {
      !Trace(events).stage.Broken?
    }

    /** The sink takes no more events. */
    predicate Refused() reads this`events {
      emitLimit == Some(|events|)
    }

    /** The run was stopped by its sink with these messages ended. */
    ghost predicate Stopped(ended: seq<AgentMessage>) reads this`events {
      WellFormed() && Refused() && Trace(events).ended == ended
    }

    method Emit(e: Event) returns (ok: bool)
      modifies this`events
      ensures ok <==> !old(Refused())
      ensures ok ==> events == old(events) + [e] && Trace(events) == Advance(old(Trace(events)), e)
      ensures ok ==> Executions(events) == Count(old(Executions(events)), e)
      ensures !ok ==> events == old(events)
    {
      if Refused() {
        return false;
      }
      events := events + [e];
      assert events[..|events| - 1] == old(events);
      return true;
    }

    /** Reads ctx.Err(): once cancelled, cancelled for good. */
    method Cancelled() returns (cancelled: bool)
      modifies this`checks
      ensures cancelled == Cancelling(world.cancelAt, old(checks)) && checks == old(checks) + 1
    {
      cancelled := world.cancelAt.Some? && world.cancelAt.value <= checks;
      checks := checks + 1;
    }

    method EmitToolStart(id: string) returns (ok: bool)
      requires Trace(events).stage.InTurn?
      modifies this`events
      ensures if ok then At(InTurn(old(Trace(events).stage.open) + multiset{id}), old(Trace(events).ended))
              else Stopped(old(Trace(events).ended))
      ensures ok ==> Executions(events) == Count(old(Executions(events)), ToolStart(id))
    {
      ok := Emit(ToolStart(id));
    }

    method EmitToolEnd(id: string, outcome: Outcome) returns (ok: bool)
      requires Trace(events).stage.InTurn? && id in Trace(events).stage.open
      modifies this`events
      ensures if ok then At(InTurn(old(Trace(events).stage.open) - multiset{id}), old(Trace(events).ended))
              else Stopped(old(Trace(events).ended))
      ensures ok ==> Executions(events) == Count(old(Executions(events)), ToolEnd(id, outcome))
    {
      ok := Emit(ToolEnd(id, outcome));
    }

    method EmitMessage(m: AgentMessage) returns (ok: bool)
      requires Trace(events).stage.InTurn?
      modifies this`events
      ensures if ok then At(old(Trace(events).stage), old(Trace(events).ended) + [m])
              else Stopped(old(Trace(events).ended))
      ensures ok ==> Executions(events) == old(Executions(events))
    {
      ok := Emit(MessageStart(m));
      if ok {
        ok := Emit(MessageEnd(m));
      }
    }

    // ---- tool calls ---------------------------------------------------------------

    method PrepareToolCall(call: Block) returns (p: Prepared)
      requires call.ToolCall?
      modifies this`checks
      ensures (p, checks) == Prepare(world.box, call, world.cancelAt, old(checks))
    {
      if !Known(world.box, call) {
        return Immediate(call, ErrorOutcome("Tool " + call.name + " not found"));
      }
      var arguments;
      match world.box.validate(call) {
        case InvalidArgs(error) => return Immediate(call, ErrorOutcome(error));
        case ValidArgs(validated) => arguments := validated;
      }
      if world.box.before.Some? {
        var decision := world.box.before.value(call, arguments);
        if decision.BeforeFails? {
          return Immediate(call, ErrorOutcome(decision.error));
        }
        var cancelled := Cancelled();
        if cancelled {
          return Immediate(call, ErrorOutcome("Operation aborted"));
        }
        if decision.Blocks? {
          var reason := if decision.reason == "" then "Tool execution was blocked" else decision.reason;
          return Immediate(call, ErrorOutcome(reason));
        }
        if decision.arguments.Some? {
          arguments := decision.arguments.value;
        }
      }
      var cancelled := Cancelled();
      if cancelled {
        return Immediate(call, ErrorOutcome("Operation aborted"));
      }
      return Ready(call, arguments);
    }

    method EmitUpdates(id: string, n: nat) returns (ok: bool)
      requires Trace(events).stage.InTurn? && id in Trace(events).stage.open
      modifies this`events
      ensures Trace(events) == old(Trace(events)) && (ok || Refused())
      ensures ok ==> events == old(events) + seq(n, _ => ToolUpdate(id))
      ensures Executions(events) == old(Executions(events))
    {
      ok := true;
      for k := 0 to n
        invariant Trace(events) == old(Trace(events)) && (ok || Refused())
        invariant Executions(events) == old(Executions(events))
        invariant ok ==> events == old(events) + seq(k, _ => ToolUpdate(id))
      {
        var accepted := Emit(ToolUpdate(id));
        ok := ok && accepted;
      }
    }

    /** One call of the sequential mode: started, prepared, executed and reported. */
    method ExecuteOne(call: Block) returns (ok: bool, p: Prepared)
      requires call.ToolCall?
      requires Trace(events).stage == InTurn(multiset{})
      modifies this`events, this`checks
      ensures ok ==> (p, checks) == Prepare(world.box, call, world.cancelAt, old(checks))
      ensures if ok
              then At(InTurn(multiset{}),
                      old(Trace(events).ended) + [LLM(ResultMessage(call, OutcomeOf(world.box, p), world.now))])
              else Stopped(old(Trace(events).ended))
      ensures ok ==> Executions(events) == RanOne(old(Executions(events)), call.id, OutcomeOf(world.box, p))
    {
      p := AbortedCall(call);
      Reclose(multiset{}, call.id);
      ok := EmitToolStart(call.id);
      if !ok { return; }
      p := PrepareToolCall(call);
      var outcome;
      if p.Immediate? {
        outcome := p.outcome;
      } else {
        ok := EmitUpdates(call.id, world.box.run(p.call, p.arguments).updates);
        if !ok { return; }
        outcome := Finalized(world.box, p);
      }
      ok := EmitToolEnd(call.id, outcome);
      if !ok { return; }
      ok := EmitMessage(LLM(ResultMessage(call, outcome, world.now)));
    }

    /** The entries so far ran one after another, and the batch still comes to `goal`. */
    ghost predicate RanSoFar(calls: seq<Block>, entries: seq<Prepared>, cancelled: bool, goal: (seq<Prepared>, nat),
                             ended: seq<AgentMessage>, tally: Tally)
      requires AreCalls(calls)
      reads this`events, this`checks
    {
      && |entries| <= |calls|
      && GoesTo(world, calls, entries, |entries|, checks, cancelled, goal)
      && At(InTurn(multiset{}), ended + LLMs(Results(world, calls, entries)))
      && Executions(events) == RanInTurn(tally, world, calls, entries)
    }

    /** One pass of the sequential loop. */
    method NextInTurn(calls: seq<Block>, call: Block, ghost entries: seq<Prepared>, ghost goal: (seq<Prepared>, nat),
                      ghost ended: seq<AgentMessage>, ghost tally: Tally)
      returns (ok: bool, p: Prepared, cancelled: bool)
      requires AreCalls(calls) && |entries| < |calls| && call == calls[|entries|]
      requires RanSoFar(calls, entries, false, goal, ended, tally)
      modifies this`events, this`checks
      ensures if ok then RanSoFar(calls, entries + [p], cancelled, goal, ended, tally)
              else Stopped(ended + LLMs(Results(world, calls, entries))) && entries <= goal.0
    {
      hide Executions, Trace, RanInTurn, Results, LLMs;
      cancelled := false;
      ghost var before, i := checks, |entries|;
      BatchIsDone(world, calls, entries, i, checks, false, goal);
      ok, p := ExecuteOne(call);
      if !ok { return; }
      BatchSteps(world, calls, entries, i, before, p, checks, goal);
      ResultsGrow(world, calls, entries, p);
      GrowResults(ended, Results(world, calls, entries), ResultMessage(call, OutcomeOf(world.box, p), world.now));
      RanInTurnGrows(tally, world, calls, entries, p);
      cancelled := Cancelled();
    }

    method ExecuteToolCallsSequential(calls: seq<Block>)
      returns (ok: bool, messages: seq<Message>, terminate: bool)
      requires AreCalls(calls) && calls != []
      requires Trace(events).stage == InTurn(multiset{})
      modifies this`events, this`checks
      ensures var batch := Batch(world.box, calls, world.cancelAt, old(checks));
              if ok
              then && At(InTurn(multiset{}), old(Trace(events).ended) + LLMs(messages))
                   && messages == Results(world, calls, batch.0)
                   && terminate == ShouldTerminate(Outcomes(world.box, batch.0)) && checks == batch.1
              else && Stopped(old(Trace(events).ended) + LLMs(messages)) && messages <= Results(world, calls, batch.0)
      ensures var entries := Batch(world.box, calls, world.cancelAt, old(checks)).0;
              ok ==> Executions(events) == RanInTurn(old(Executions(events)), world, calls, entries)
    {
      ghost var goal, ended := Batch(world.box, calls, world.cancelAt, checks), Trace(events).ended;
      ghost var tally, entries: seq<Prepared> := Executions(events), [];
      var finalized: seq<Outcome> := [];
      messages, terminate := [], false;
      BatchStarts(world, calls, checks);
      RanNone(tally, world, calls);
      assert ended + LLMs(Results(world, calls, [])) == ended;
      var i, cancelled := 0, false;
      while i < |calls| && !cancelled
        invariant i == |entries| <= |calls| && (cancelled ==> i > 0)
        invariant finalized == Outcomes(world.box, entries) && messages == Results(world, calls, entries)
        invariant RanSoFar(calls, entries, cancelled, goal, ended, tally)
        decreases |calls| - i
      {
        var p;
        ok, p, cancelled := NextInTurn(calls, calls[i], entries, goal, ended, tally);
        if !ok {
          ResultsPrefix(world, calls, entries, goal.0);
          return;
        }
        OutcomesGrow(world.box, entries, p);
        ResultsGrow(world, calls, entries, p);
        finalized := finalized + [OutcomeOf(world.box, p)];
        messages := messages + [ResultMessage(calls[i], OutcomeOf(world.box, p), world.now)];
        entries, i := entries + [p], i + 1;
      }
      BatchIsDone(world, calls, entries, i, checks, cancelled, goal);
      ok := true;
      terminate := ShouldTerminate(finalized);
    }

    /** Starts and prepares one call; a call decided at once also ends at once. */
    method StartOne(call: Block) returns (ok: bool, p: Prepared)
      requires call.ToolCall?
      requires Trace(events).stage.InTurn?
      modifies this`events, this`checks
      ensures ok ==> (p, checks) == Prepare(world.box, call, world.cancelAt, old(checks))
      ensures if ok
              then At(InTurn(if p.Ready? then old(Trace(events).stage.open) + multiset{call.id}
                             else old(Trace(events).stage.open)),
                      old(Trace(events).ended))
              else Stopped(old(Trace(events).ended))
      ensures ok ==> Executions(events) == StartedOne(old(Executions(events)), world, call.id, p)
    {
      p := AbortedCall(call);
      Reclose(Trace(events).stage.open, call.id);
      ok := EmitToolStart(call.id);
      if !ok { return; }
      p := PrepareToolCall(call);
      if p.Immediate? {
        ok := EmitToolEnd(call.id, p.outcome);
      }
    }

    /** One pass of the first loop of the parallel mode. */
    method NextStarted(calls: seq<Block>, i: nat, ghost done: seq<Prepared>, ghost goal: (seq<Prepared>, nat))
      returns (ok: bool, p: Prepared, cancelled: bool)
      requires AreCalls(calls) && i < |calls| && GoesTo(world, calls, done, i, checks, false, goal)
      requires Trace(events).stage.InTurn?
      modifies this`events, this`checks
      ensures ok ==> p.call == calls[i] && GoesTo(world, calls, done + [p], i + 1, checks, cancelled, goal)
      ensures if ok
              then At(InTurn(if p.Ready? then old(Trace(events).stage.open) + multiset{calls[i].id}
                             else old(Trace(events).stage.open)),
                      old(Trace(events).ended))
              else Stopped(old(Trace(events).ended))
      ensures ok ==> Executions(events) == StartedOne(old(Executions(events)), world, calls[i].id, p)
    {
      hide Executions, Trace, StartedOne, GoesTo, Batch;
      cancelled := false;
      ghost var before := checks;
      ok, p := StartOne(calls[i]);
      if !ok { return; }
      BatchSteps(world, calls, done, i, before, p, checks, goal);
      cancelled := Cancelled();
    }

    /** The first loop of the parallel mode: start and prepare the calls in order.
        `waiting` lists the positions left to execute. */
    method StartCalls(calls: seq<Block>) returns (ok: bool, entries: seq<Prepared>, waiting: seq<nat>)
      requires AreCalls(calls) && calls != []
      requires Trace(events).stage == InTurn(multiset{})
      modifies this`events, this`checks
      ensures ok ==>
        (entries, checks) == Batch(world.box, calls, world.cancelAt, old(checks)) && Waits(entries, waiting)
      ensures if ok then At(InTurn(multiset(OpenIDs(calls, waiting))), old(Trace(events).ended))
              else Stopped(old(Trace(events).ended))
      ensures ok ==> Underway(old(Executions(events)), Executions(events), world, calls, entries, waiting)
    {
      hide Executions, Trace, StartedOne, Underway;
      ghost var goal, ended := Batch(world.box, calls, world.cancelAt, checks), Trace(events).ended;
      ghost var tally := Executions(events);
      entries, waiting := [], [];
      assert OpenIDs(calls, waiting) == [];
      BatchStarts(world, calls, checks);
      NoneUnderway(tally, world, calls);
      var i: nat := 0;
      var cancelled := false;
      while i < |calls| && !cancelled
        invariant i == |entries| <= |calls| && Waits(entries, waiting)
        invariant GoesTo(world, calls, entries, i, checks, cancelled, goal)
        invariant At(InTurn(multiset(OpenIDs(calls, waiting))), ended)
        invariant Underway(tally, Executions(events), world, calls, entries, waiting)
        decreases |calls| - i
      {
        var p;
        ghost var now := Executions(events);
        ok, p, cancelled := NextStarted(calls, i, entries, goal);
        if !ok { return; }
        OneMoreUnderway(tally, now, world, calls, entries, waiting, p);
        AddEntry(calls, entries, waiting, p);
        entries, waiting := entries + [p], Await(waiting, i, p);
        i := i + 1;
      }
      BatchIsDone(world, calls, entries, i, checks, cancelled, goal);
      ok := true;
    }

    /** Publishes what one goroutine produced. */
    method ReportOne(p: Prepared) returns (ok: bool)
      requires p.Ready? && p.call.ToolCall?
      requires Trace(events).stage.InTurn? && p.call.id in Trace(events).stage.open
      modifies this`events
      ensures if ok then At(InTurn(old(Trace(events).stage.open) - multiset{p.call.id}), old(Trace(events).ended))
              else Stopped(old(Trace(events).ended))
      ensures ok ==> Executions(events) == Count(old(Executions(events)), ToolEnd(p.call.id, OutcomeOf(world.box, p)))
    {
      ok := EmitUpdates(p.call.id, world.box.run(p.call, p.arguments).updates);
      if ok { ok := EmitToolEnd(p.call.id, Finalized(world.box, p)); }
    }

    /** The goroutines complete in an arbitrary order, each filling its own slot.
        After a refused event the rest still completes, silently. */
    method CompleteAll(calls: seq<Block>, entries: seq<Prepared>, waiting: seq<nat>, results: array<Outcome>,
                       ghost tally: Tally)
      returns (ok: bool)
      requires AreCalls(calls) && |entries| == results.Length <= |calls|
      requires forall k | 0 <= k < |entries| :: entries[k].call == calls[k]
      requires Waits(entries, waiting)
      requires At(InTurn(multiset(OpenIDs(calls, waiting))), Trace(events).ended)
      requires forall k | 0 <= k < |entries| && entries[k].Immediate? :: results[k] == entries[k].outcome
      requires Underway(tally, Executions(events), world, calls, entries, waiting)
      modifies this`events, results
      ensures forall k | 0 <= k < |entries| :: results[k] == OutcomeOf(world.box, entries[k])
      ensures if ok then At(InTurn(multiset{}), old(Trace(events).ended)) else Stopped(old(Trace(events).ended))
      ensures ok ==> EachRanOnce(tally, Executions(events), world, calls, entries)
    {
      ghost var ended := Trace(events).ended;
      var running: seq<nat> := waiting;
      ok := true;
      while running != []
        invariant InRange(running, |entries|)
        invariant forall j | 0 <= j < |running| :: entries[running[j]].Ready?
        invariant forall k: nat | k < |entries| && k !in running :: results[k] == OutcomeOf(world.box, entries[k])
        invariant if ok then At(InTurn(multiset(OpenIDs(calls, running))), ended) else Stopped(ended)
        invariant ok ==> Underway(tally, Executions(events), world, calls, entries, running)
        decreases |running|
      {
        var j :| 0 <= j < |running|;
        var idx := running[j];
        results[idx] := Finalized(world.box, entries[idx]);
        if ok { ok := CloseRunning(calls, entries, running, j, tally); }
        running := Remove(running, j);
      }
      if ok {
        assert OpenIDs(calls, running) == [];
        NoneLeftUnderway(tally, Executions(events), world, calls, entries);
      }
    }

    /** The report of one goroutine closes its call among those still running. */
    method CloseRunning(calls: seq<Block>, entries: seq<Prepared>, running: seq<nat>, j: nat, ghost tally: Tally)
      returns (ok: bool)
      requires AreCalls(calls) && |entries| <= |calls| && InRange(running, |entries|) && j < |running|
      requires entries[running[j]].Ready? && entries[running[j]].call == calls[running[j]]
      requires Trace(events).stage == InTurn(multiset(OpenIDs(calls, running)))
      requires Underway(tally, Executions(events), world, calls, entries, running)
      modifies this`events
      ensures if ok then At(InTurn(multiset(OpenIDs(calls, Remove(running, j)))), old(Trace(events).ended))
              else Stopped(old(Trace(events).ended))
      ensures ok ==> Underway(tally, Executions(events), world, calls, entries, Remove(running, j))
    {
      hide Executions, Trace, Underway, Finalized;
      CloseOne(calls, running, j);
      ghost var now := Executions(events);
      ok := ReportOne(entries[running[j]]);
      if ok { OneLessUnderway(tally, now, Executions(events), world, calls, entries, running, j); }
    }

    method ExecuteToolCallsParallel(calls: seq<Block>)
      returns (ok: bool, messages: seq<Message>, terminate: bool)
      requires AreCalls(calls) && calls != []
      requires Trace(events).stage == InTurn(multiset{})
      modifies this`events, this`checks
      ensures var batch := Batch(world.box, calls, world.cancelAt, old(checks));
              if ok
              then && At(InTurn(multiset{}), old(Trace(events).ended) + LLMs(messages))
                   && messages == Results(world, calls, batch.0)
                   && terminate == ShouldTerminate(Outcomes(world.box, batch.0)) && checks == batch.1
              else && Stopped(old(Trace(events).ended) + LLMs(messages)) && messages <= Results(world, calls, batch.0)
      ensures var batch := Batch(world.box, calls, world.cancelAt, old(checks));
              ok ==> EachRanOnce(old(Executions(events)), Executions(events), world, calls, batch.0)
    {
      hide Executions, Trace, EachRanOnce, Underway;
      messages, terminate := [], false;
      var entries: seq<Prepared>;
      var waiting: seq<nat>;
      ok, entries, waiting := StartCalls(calls);
      if !ok { return; }
      var results := PlaceImmediate(entries);
      ok := CompleteAll(calls, entries, waiting, results, old(Executions(events)));
      if !ok { return; }
      var outcomes := results[..];
      assert outcomes == Outcomes(world.box, entries);
      ok, messages := ReportResults(calls, outcomes);
      terminate := ShouldTerminate(outcomes);
    }

    /** The slice of results, with the outcomes that are known before any tool runs. */
    method PlaceImmediate(entries: seq<Prepared>) returns (results: array<Outcome>)
      ensures fresh(results) && results.Length == |entries|
      ensures forall k | 0 <= k < |entries| && entries[k].Immediate? :: results[k] == entries[k].outcome
    {
      results := new Outcome[|entries|](_ => ErrorOutcome(""));
      for k := 0 to |entries|
        invariant forall j | 0 <= j < k && entries[j].Immediate? :: results[j] == entries[j].outcome
      {
        if entries[k].Immediate? { results[k] := entries[k].outcome; }
      }
    }

    /** Emits one result message per outcome, in call order. */
    method ReportResults(calls: seq<Block>, outcomes: seq<Outcome>) returns (ok: bool, messages: seq<Message>)
      requires AreCalls(calls) && |outcomes| <= |calls|
      requires Trace(events).stage == InTurn(multiset{})
      modifies this`events
      ensures messages <= ResultMessages(calls, outcomes, world.now)
      ensures if ok
              then && At(InTurn(multiset{}), old(Trace(events).ended) + LLMs(messages))
                   && messages == ResultMessages(calls, outcomes, world.now)
              else Stopped(old(Trace(events).ended) + LLMs(messages))
      ensures ok ==> Executions(events) == old(Executions(events))
    {
      messages := [];
      var k := 0;
      while k < |outcomes|
        invariant 0 <= k == |messages| <= |outcomes|
        invariant forall j | 0 <= j < k :: messages[j] == ResultMessage(calls[j], outcomes[j], world.now)
        invariant At(InTurn(multiset{}), old(Trace(events).ended) + LLMs(messages))
        invariant Executions(events) == old(Executions(events))
      {
        var toolResult := ResultMessage(calls[k], outcomes[k], world.now);
        ok := EmitMessage(LLM(toolResult));
        if !ok { return; }
        GrowResults(old(Trace(events).ended), messages, toolResult);
        messages := messages + [toolResult];
        k := k + 1;
      }
      ok := true;
      assert messages == ResultMessages(calls, outcomes, world.now);
    }

    method ExecuteToolCalls(calls: seq<Block>) returns (ok: bool, messages: seq<Message>, terminate: bool)
      requires AreCalls(calls) && calls != []
      requires Trace(events).stage == InTurn(multiset{})
      modifies this`events, this`checks
      ensures var batch := Batch(world.box, calls, world.cancelAt, old(checks));
              if ok
              then && At(InTurn(multiset{}), old(Trace(events).ended) + LLMs(messages))
                   && messages == Results(world, calls, batch.0)
                   && terminate == ShouldTerminate(Outcomes(world.box, batch.0)) && checks == batch.1
              else && Stopped(old(Trace(events).ended) + LLMs(messages)) && messages <= Results(world, calls, batch.0)
      ensures var batch := Batch(world.box, calls, world.cancelAt, old(checks));
              ok ==> EachRanOnce(old(Executions(events)), Executions(events), world, calls, batch.0)
    {
      var hasSequential := exists c <- calls, t <- world.box.tools :: t.name == c.name && t.sequential;
      if world.box.sequentialMode || hasSequential {
        ok, messages, terminate := ExecuteToolCallsSequential(calls);
        ghost var batch := Batch(world.box, calls, world.cancelAt, old(checks));
        InTurnEachRanOnce(old(Executions(events)), world, calls, batch.0);
      } else {
        ok, messages, terminate := ExecuteToolCallsParallel(calls);
      }
    }

    // ---- one reply ------------------------------------------------------------------

    /** Installs the final message of a reply and closes its events. */
    method FinishReply(m: Message, started: bool) returns (ok: bool)
      requires Trace(events).stage == if started then InMessage(multiset{}) else InTurn(multiset{})
      requires started ==> context != []
      modifies this`context, this`events
      ensures context == (if started then old(context)[..|old(context)| - 1] else old(context)) + [LLM(m)]
      ensures if ok then At(InTurn(multiset{}), old(Trace(events).ended) + [LLM(m)])
              else Stopped(old(Trace(events).ended))
    {
      if started {
        context := context[..|context| - 1] + [LLM(m)];
        ok := Emit(MessageEnd(LLM(m)));
      } else {
        context := context + [LLM(m)];
        ok := EmitMessage(LLM(m));
      }
    }

    /** Sends the context and relays the reply; None is an error of the run.  While the
        reply streams, the last context message is its latest snapshot. */
    method StreamAssistantResponse(script: StreamScript, keyFails: bool) returns (reply: Option<Message>)
      requires Trace(events).stage == InTurn(multiset{})
      modifies this`context, this`events, this`requests
      ensures requests == if ConvertToLLM(old(context)).None? || keyFails then old(requests)
                          else old(requests) + [ProjectAll(old(context))]
      ensures if reply.Some?
              then && ConvertToLLM(old(context)).Some? && !keyFails && reply == ReplyOf(script)
                   && context == old(context) + [LLM(reply.value)]
                   && At(InTurn(multiset{}), old(Trace(events).ended) + [LLM(reply.value)])
              else && WellFormed() && Trace(events).ended == old(Trace(events).ended)
                   && (Refused() || ConvertToLLM(old(context)).None? || keyFails || ReplyOf(script).None?)
    {
      var llmMessages := ConvertToLLM(context);
      if llmMessages.None? || keyFails {
        return None;
      }
      requests := requests + [llmMessages.value];
      var started := false;
      assert script.items[0..] == script.items;
      for i := 0 to |script.items|
        invariant requests == old(requests) + [ProjectAll(old(context))]
        invariant if started then context != [] && context[..|context| - 1] == old(context) else context == old(context)
        invariant At(if started then InMessage(multiset{}) else InTurn(multiset{}), old(Trace(events).ended))
        invariant ReplyOf(script) == ReplyOf(script.(items := script.items[i..]))
      {
        var item := script.items[i];
        assert script.items[i..][0] == item && script.items[i..][1..] == script.items[i + 1..];
        match item {
          case StreamFails =>
            if script.result.None? {
              return None;
            }
            var ok := FinishReply(script.result.value, started);
            return if ok then script.result else None;
          case NilEvent =>
          case StreamStart(message) =>
            if message.Some? {
              var m := LLM(message.value);
              if started {
                context := context[..|context| - 1] + [m];
              } else {
                context := context + [m];
                started := true;
                var ok := Emit(MessageStart(m));
                if !ok { return None; }
              }
            }
          case StreamBlock(message) =>
            if message.Some? && started {
              var m := LLM(message.value);
              context := context[..|context| - 1] + [m];
              var ok := Emit(MessageUpdate(m));
              if !ok { return None; }
            }
          case StreamEnd(message) =>
            if message.None? {
              return None;
            }
            var ok := FinishReply(message.value, started);
            return if ok then message else None;
        }
      }
      if script.result.None? {
        return None;
      }
      var ok := FinishReply(script.result.value, started);
      return if ok then script.result else None;
    }

    // ---- turns and the loop -----------------------------------------------------------

    /** What a run that gave up has sent and ended is the beginning of what the journal
        says, and all of it unless the sink stopped the run. */
    ghost predicate CutShort(log: Journal) reads this {
      && WellFormed() && requests <= log.requests && Trace(events).ended <= log.newMessages
      && (Refused() || (requests == log.requests && Trace(events).ended == log.newMessages))
    }

    method InjectPending(pending: seq<AgentMessage>) returns (ok: bool)
      requires At(InTurn(multiset{}), newMessages)
      modifies this`context, this`newMessages, this`events
      ensures if ok then Log() == Appended(old(Log()), pending) && At(InTurn(multiset{}), newMessages)
              else WellFormed() && Refused() && Trace(events).ended <= Appended(old(Log()), pending).newMessages
    {
      for i := 0 to |pending|
        invariant newMessages == old(newMessages) + pending[..i] && context == old(context) + pending[..i]
        invariant At(InTurn(multiset{}), newMessages)
      {
        ok := EmitMessage(pending[i]);
        if !ok {
          assert pending == pending[..i] + pending[i..];
          return;
        }
        assert pending[..i + 1] == pending[..i] + [pending[i]];
        context := context + [pending[i]];
        newMessages := newMessages + [pending[i]];
      }
      assert pending[..|pending|] == pending;
      ok := true;
    }

    /** Starts a turn, injects the pending messages and streams the reply. */
    method OpenTurn(turn: TurnScript, firstTurn: bool, pending: seq<AgentMessage>) returns (reply: Option<Message>)
      requires At(if firstTurn then InTurn(multiset{}) else AfterTurn, newMessages)
      modifies this`context, this`newMessages, this`events, this`requests
      ensures var o := Appended(old(Log()), pending);
              if reply.Some?
              then && ConvertToLLM(o.context).Some? && !turn.keyFails && reply == ReplyOf(turn.stream)
                   && Log() == Appended(Asked(o), [LLM(reply.value)]) && At(InTurn(multiset{}), newMessages)
              else && CutShort(if ConvertToLLM(o.context).None? || turn.keyFails then o else Asked(o))
                   && (Refused() || ConvertToLLM(o.context).None? || turn.keyFails || ReplyOf(turn.stream).None?)
    {
      if !firstTurn {
        var ok := Emit(TurnStart);
        if !ok { return None; }
      }
      var ok := InjectPending(pending);
      if !ok { return None; }
      reply := StreamAssistantResponse(turn.stream, turn.keyFails);
      if reply.None? { return; }
      newMessages := newMessages + [LLM(reply.value)];
    }

    /** A turn does what its script comes to, or is stopped by the sink on the way. */
    method RunTurn(turn: TurnScript, firstTurn: bool, pending: seq<AgentMessage>)
      returns (outcome: TurnOutcome, hasMore: bool, steering: seq<AgentMessage>)
      requires At(if firstTurn then InTurn(multiset{}) else AfterTurn, newMessages)
      modifies this
      ensures outcome.Continues? ==> At(AfterTurn, newMessages)
      ensures outcome.Ends? ==> At(Finished, newMessages)
      ensures !outcome.Fails? ==> Turn(outcome, hasMore, steering, Log()) == TurnOf(world, old(Log()), pending, turn)
      ensures outcome.Fails? ==>
        var t := TurnOf(world, old(Log()), pending, turn); CutShort(t.log) && (Refused() || t.outcome.Fails?)
    {
      hide AfterReply;
      outcome, hasMore, steering := Fails, false, [];
      ghost var o := Appended(Log(), pending);
      TurnGoesOn(world, Log(), pending, turn);
      var reply := OpenTurn(turn, firstTurn, pending);
      if reply.None? {
        if ConvertToLLM(o.context).Some? && !turn.keyFails && ReplyOf(turn.stream).Some? {
          AfterReplyGoesOn(world, Asked(o), ReplyOf(turn.stream).value, turn);
        }
        return;
      }
      outcome, hasMore, steering := FinishTurn(reply.value, turn, Asked(o));
    }

    /** The rest of a turn behind its reply. */
    method FinishTurn(m: Message, turn: TurnScript, ghost asked: Journal)
      returns (outcome: TurnOutcome, hasMore: bool, steering: seq<AgentMessage>)
      requires Log() == Appended(asked, [LLM(m)]) && At(InTurn(multiset{}), newMessages)
      modifies this
      ensures outcome.Continues? ==> At(AfterTurn, newMessages)
      ensures outcome.Ends? ==> At(Finished, newMessages)
      ensures !outcome.Fails? ==> Turn(outcome, hasMore, steering, Log()) == AfterReply(world, asked, m, turn)
      ensures outcome.Fails? ==>
        var t := AfterReply(world, asked, m, turn); CutShort(t.log) && (Refused() || t.outcome.Fails?)
    {
      outcome, hasMore, steering := Fails, false, [];
      if Failed(m) {
        outcome := EndFailedTurn(m);
        return;
      }
      ghost var b := Log();
      var ok;
      ok, hasMore := ExecuteTurnCalls(m);
      ghost var answered := Answered(world, b, m);
      BetweenIs(answered.0, answered.1, turn);
      if !ok { return; }
      outcome, steering := AfterTurnEnd(turn, hasMore);
    }

    method EndFailedTurn(m: Message) returns (outcome: TurnOutcome)
      requires At(InTurn(multiset{}), newMessages) && EndsWith(newMessages, [LLM(m)])
      modifies this`events
      ensures if outcome.Ends? then At(Finished, newMessages) else outcome.Fails? && Stopped(newMessages)
    {
      assert [LLM(m)] + LLMs([]) == [LLM(m)];
      var ok := EndTurn(m, []);
      if !ok { return Fails; }
      ok := Emit(AgentEnd(newMessages));
      return if ok then Ends else Fails;
    }

    /** Executes the calls of the reply, if any, and ends the turn. */
    method ExecuteTurnCalls(m: Message) returns (ok: bool, hasMore: bool)
      requires At(InTurn(multiset{}), newMessages) && EndsWith(newMessages, [LLM(m)])
      modifies this`context, this`newMessages, this`events, this`checks
      ensures if ok then (Log(), hasMore) == Answered(world, old(Log()), m) && At(AfterTurn, newMessages)
              else CutShort(Answered(world, old(Log()), m).0) && Refused()
    {
      hasMore := false;
      var toolCalls := ToolCalls(m.content);
      var toolResults := [];
      if toolCalls != [] {
        var terminate;
        ghost var full := Results(world, toolCalls, Batch(world.box, toolCalls, world.cancelAt, checks).0);
        ok, toolResults, terminate := ExecuteToolCalls(toolCalls);
        if !ok {
          PrefixOfResults(newMessages, toolResults, full);
          return;
        }
        hasMore := !terminate;
        context := context + LLMs(toolResults);
        newMessages := newMessages + LLMs(toolResults);
      } else {
        assert newMessages + LLMs([]) == newMessages;
      }
      ReplyAndResultsEnd(old(newMessages), m, toolResults);
      ok := EndTurn(m, toolResults);
    }

    /** The hooks between two turns, in the order the loop consults them. */
    method AfterTurnEnd(turn: TurnScript, hasMore: bool) returns (outcome: TurnOutcome, steering: seq<AgentMessage>)
      requires At(AfterTurn, newMessages)
      modifies this`context, this`events
      ensures outcome.Continues? ==> At(AfterTurn, newMessages)
      ensures outcome.Ends? ==> At(Finished, newMessages)
      ensures !outcome.Fails? ==> Turn(outcome, hasMore, steering, Log()) == Between(old(Log()), hasMore, turn)
      ensures outcome.Fails? ==>
        && WellFormed() && Trace(events).ended == newMessages
        && (Refused() || Between(old(Log()), hasMore, turn).outcome.Fails?)
    {
      outcome, steering := Fails, [];
      match turn.next {
        case NextTurnFails => return;
        case ReplaceContext(replaced) => context := replaced;
        case KeepContext =>
      }
      match turn.stop {
        case StopFails => return;
        case StopNow =>
          var ok := Emit(AgentEnd(newMessages));
          if ok { outcome := Ends; }
          return;
        case GoOn =>
      }
      match turn.steering {
        case FetchFails => return;
        case Fetched(messages) => return Continues, messages;
      }
    }

    method EndTurn(m: Message, toolResults: seq<Message>) returns (ok: bool)
      requires Trace(events).stage == InTurn(multiset{})
      requires EndsWith(Trace(events).ended, [LLM(m)] + LLMs(toolResults))
      modifies this`events
      ensures if ok then At(AfterTurn, old(Trace(events).ended)) else Stopped(old(Trace(events).ended))
    {
      ok := Emit(TurnEnd(LLM(m), toolResults));
    }

    /** What every run promises about the script it comes to: it fails only if the script
        does or its sink stopped it, and then it has sent and ended a beginning. */
    ghost predicate Follows(status: Status, r: RunResult) reads this {
      if status.RunFailed? then CutShort(r.log) && (Refused() || r.status.RunFailed?)
      else status == r.status && Log() == r.log && WellFormed() && Trace(events).ended == newMessages
           && (status.Completed? ==> Trace(events).stage.Finished?)
    }

    /** One turn of a loop that comes to `r`. */
    method NextTurn(script: seq<TurnScript>, t: nat, firstTurn: bool, pending: seq<AgentMessage>, ghost r: RunResult)
      returns (outcome: TurnOutcome, hasMore: bool, steering: seq<AgentMessage>)
      requires t < |script| && At(if firstTurn then InTurn(multiset{}) else AfterTurn, newMessages)
      requires Loop(world, Log(), pending, script[t..]) == r
      modifies this
      ensures outcome.Continues? ==>
        At(AfterTurn, newMessages) && Onward(world, Log(), hasMore, steering, script[t].followUps, script[t + 1..]) == r
      ensures outcome.Ends? ==> At(Finished, newMessages) && r == RunResult(Completed, Log())
      ensures outcome.Fails? ==> CutShort(r.log) && (Refused() || r.status.RunFailed?)
    {
      hide Loop;
      hide TurnOf;
      LoopUnfolds(world, Log(), pending, script, t);
      TurnIsInLoop(world, Log(), pending, script[t..]);
      outcome, hasMore, steering := RunTurn(script[t], firstTurn, pending);
    }

    /** The inner loop: turns until no call asks for more and nothing is pending. */
    method RunTurns(script: seq<TurnScript>, from: nat, firstTurn: bool, initial: seq<AgentMessage>, ghost r: RunResult)
      returns (status: Option<Status>, t: nat)
      requires from <= |script| && At(if firstTurn then InTurn(multiset{}) else AfterTurn, newMessages)
      requires Loop(world, Log(), initial, script[from..]) == r
      modifies this
      ensures status.None? ==>
        && from < t <= |script| && At(AfterTurn, newMessages)
        && Onward(world, Log(), false, [], script[t - 1].followUps, script[t..]) == r
      ensures status.Some? ==> Follows(status.value, r)
    {
      hide TurnOf;
      hide Trace;
      var pending := initial;
      var hasMoreToolCalls, first := true, firstTurn;
      t := from;
      while hasMoreToolCalls || pending != []
        invariant from <= t <= |script| && At(if first then InTurn(multiset{}) else AfterTurn, newMessages)
        invariant t > from ==> !first
        invariant if t == from then hasMoreToolCalls && Loop(world, Log(), pending, script[t..]) == r
                  else Onward(world, Log(), hasMoreToolCalls, pending, script[t - 1].followUps, script[t..]) == r
        decreases |script| - t
      {
        if t == |script| {
          return Some(OutOfScript), t;
        }
        var outcome;
        outcome, hasMoreToolCalls, pending := NextTurn(script, t, first, pending, r);
        first, t := false, t + 1;
        if outcome.Fails? { return Some(RunFailed), t; }
        if outcome.Ends? { return Some(Completed), t; }
      }
      return None, t;
    }

    /** Turns until no call asks for more and nothing is pending, then once more for
        every batch of follow-ups.  A script that runs out is a run cut short. */
    method RunLoop(script: seq<TurnScript>, initialSteering: Fetch) returns (status: Status)
      requires At(InTurn(multiset{}), newMessages)
      modifies this
      ensures Follows(status, Steered(world, old(Log()), initialSteering, script))
    {
      hide Loop;
      hide TurnOf;
      hide Trace;
      ghost var r := Steered(world, Log(), initialSteering, script);
      status := RunFailed;
      var pending;
      match initialSteering {
        case FetchFails => return;
        case Fetched(messages) => pending := messages;
      }
      var firstTurn, t := true, 0;
      assert script[0..] == script;
      while true
        invariant 0 <= t <= |script|
        invariant At(if firstTurn then InTurn(multiset{}) else AfterTurn, newMessages)
        invariant Loop(world, Log(), pending, script[t..]) == r
        decreases |script| - t
      {
        var ended;
        ended, t := RunTurns(script, t, firstTurn, pending, r);
        if ended.Some? { return ended.value; }
        firstTurn := false;
        match script[t - 1].followUps {
          case FetchFails => return;
          case Fetched(messages) => pending := messages;
        }
        if pending == [] { break; }
      }
      var ok := Emit(AgentEnd(newMessages));
      if ok { status := Completed; }
    }

    /** The transcripts of a run in a fair world can be delivered to any provider: every
        request it sent, the messages it ended behind `before` however it went, and the
        context it leaves.  What a session holds of them is up to its handlers. */
    ghost predicate LeavesDeliverable(status: Status, before: seq<AgentMessage>) reads this {
      && AllDeliverable(requests)
      && OrderlyContext(before + Ended(events)) && Deliverable(ProjectAll(before + Ended(events)))
      && (!status.RunFailed? ==> OrderlyContext(context) && Deliverable(ProjectAll(context)))
    }

    lemma FollowingDelivers(status: Status, before: seq<AgentMessage>, prompts: seq<AgentMessage>, initial: Fetch,
                            script: seq<TurnScript>)
      requires Follows(status, Whole(world, before, prompts, initial, script))
      requires OrderlyContext(before) && AllInjectable(prompts) && GoodFetch(initial) && GoodScript(script)
      ensures LeavesDeliverable(status, before)
    {
      hide Whole;
      TraceCollectsEnds(events);
      WholeIsDeliverable(world, before, prompts, initial, script);
      CutShortIsDeliverable(world, before, prompts, initial, script, requests, Ended(events));
    }

    /** A run started with prompts: it does what its script comes to, and it fails only when
        the script does or the sink refuses an event. */
    method Run(prompts: seq<AgentMessage>, script: seq<TurnScript>, initialSteering: Fetch) returns (status: Status)
      requires events == [] && newMessages == [] && requests == [] && checks == 0
      modifies this
      ensures Follows(status, Whole(world, old(context), prompts, initialSteering, script))
      ensures emitLimit.None? && WorldDelivers(old(context), prompts, initialSteering, script) ==> !status.RunFailed?
      ensures OrderlyContext(old(context)) && AllInjectable(prompts) && GoodFetch(initialSteering)
              && GoodScript(script) ==>
        LeavesDeliverable(status, old(context))
      ensures !status.RunFailed? && KeepsContext(script) ==>
        context == old(context) + newMessages && prompts <= newMessages
    {
      hide Whole;
      hide Follows;
      hide LeavesDeliverable;
      status := Start(prompts, script, initialSteering);
      RunKeepsPromises(status, old(context), prompts, initialSteering, script);
    }

    lemma RunKeepsPromises(status: Status, before: seq<AgentMessage>, prompts: seq<AgentMessage>, initial: Fetch,
                           script: seq<TurnScript>)
      requires Follows(status, Whole(world, before, prompts, initial, script))
      ensures emitLimit.None? && WorldDelivers(before, prompts, initial, script) ==> !status.RunFailed?
      ensures OrderlyContext(before) && AllInjectable(prompts) && GoodFetch(initial) && GoodScript(script) ==>
        LeavesDeliverable(status, before)
      ensures !status.RunFailed? && KeepsContext(script) ==> context == before + newMessages && prompts <= newMessages
    {
      hide Whole;
      hide LeavesDeliverable;
      if WorldDelivers(before, prompts, initial, script) { WholeGoesThrough(world, before, prompts, initial, script); }
      if OrderlyContext(before) && AllInjectable(prompts) && GoodFetch(initial) && GoodScript(script) {
        FollowingDelivers(status, before, prompts, initial, script);
      }
      if KeepsContext(script) { WholeKeepsContext(world, before, prompts, initial, script); }
    }

    /** Opens the run and its first turn. */
    method EmitOpening() returns (ok: bool)
      requires events == []
      modifies this`events
      ensures if ok then At(InTurn(multiset{}), []) else Stopped([])
    {
      ok := Emit(AgentStart);
      if !ok { return; }
      ok := Emit(TurnStart);
    }

    method Start(prompts: seq<AgentMessage>, script: seq<TurnScript>, initialSteering: Fetch) returns (status: Status)
      requires events == [] && newMessages == [] && requests == [] && checks == 0
      modifies this
      ensures Follows(status, Whole(world, old(context), prompts, initialSteering, script))
    {
      hide Loop, Executions, Trace;
      status := RunFailed;
      SteeredGoesOn(world, Appended(Log(), prompts), initialSteering, script);
      var ok := EmitOpening();
      if !ok { return; }
      ok := InjectPending(prompts);
      if !ok { return; }
      status := RunLoop(script, initialSteering);
    }

    /** A run resumed from the context alone; it refuses an empty context and one that ends in
        a reply, and otherwise does what a run without prompts does. */
    method Continue(script: seq<TurnScript>, initialSteering: Fetch) returns (status: Status, refused: bool)
      requires events == [] && newMessages == [] && requests == [] && checks == 0
      modifies this
      ensures refused <==> old(context) == [] || IsReply(old(context)[|old(context)| - 1])
      ensures refused ==> status.RunFailed? && events == [] && Log() == old(Log())
      ensures !refused ==> Follows(status, Whole(world, old(context), [], initialSteering, script))
      ensures !refused && emitLimit.None? && WorldDelivers(old(context), [], initialSteering, script) ==>
        !status.RunFailed?
      ensures OrderlyContext(old(context)) && GoodFetch(initialSteering) && GoodScript(script) && !refused ==>
        LeavesDeliverable(status, old(context))
    {
      hide Whole;
      hide Follows;
      hide LeavesDeliverable;
      status, refused := RunFailed, false;
      if context == [] || IsReply(context[|context| - 1]) {
        refused := true;
        return;
      }
      status := Resume(script, initialSteering);
      RunKeepsPromises(status, old(context), [], initialSteering, script);
    }

    method Resume(script: seq<TurnScript>, initialSteering: Fetch) returns (status: Status)
      requires events == [] && newMessages == [] && requests == [] && checks == 0
      modifies this
      ensures Follows(status, Whole(world, old(context), [], initialSteering, script))
    {
      hide Loop, Executions, Trace;
      status := RunFailed;
      assert Appended(Log(), []) == Log();
      SteeredGoesOn(world, Log(), initialSteering, script);
      var ok := EmitOpening();
      if !ok { return; }
      status := RunLoop(script, initialSteering);
    }
  }
}
