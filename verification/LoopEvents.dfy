/** The lifecycle events of one run and the grammar they follow. */
module LoopEvents {
  import opened Messages
  import opened AgentMessages

  datatype Outcome = Outcome(content: seq<Block>, details: string, isError: bool, terminate: bool)

  datatype Event =
    | AgentStart
    | TurnStart
    | MessageStart(message: AgentMessage)
    | MessageUpdate(message: AgentMessage)
    | MessageEnd(message: AgentMessage)
    | ToolStart(id: string)
    | ToolUpdate(id: string)
    | ToolEnd(id: string, outcome: Outcome)
    | TurnEnd(message: AgentMessage, toolResults: seq<Message>)
    | AgentEnd(messages: seq<AgentMessage>)

  /** Where a run stands. `open` counts the tool executions started but not ended. */
  datatype Stage =
    | Idle
    | Started
    | InTurn(open: multiset<string>)
    | InMessage(open: multiset<string>)
    | AfterTurn
    | Finished
    | Broken

  /** A stage together with the messages ended so far. */
  datatype Phase = Phase(stage: Stage, ended: seq<AgentMessage>)

  predicate EndsWith<T(==)>(s: seq<T>, suffix: seq<T>) {
    |suffix| <= |s| && s[|s| - |suffix|..] == suffix
  }

  /** AgentStart (TurnStart ... TurnEnd)+ AgentEnd. Inside a turn every message has
      one start and one end with updates only between them, every tool execution
      ends once after its start and its updates, and none is open when the turn
      ends. A turn reports the reply and the results it ended with; the run
      reports every message it ended. */
  function Advance(p: Phase, e: Event): Phase {
    match (p.stage, e)
    case (Idle, AgentStart) => p.(stage := Started)
    case (Started, TurnStart) => p.(stage := InTurn(multiset{}))
    case (AfterTurn, TurnStart) => p.(stage := InTurn(multiset{}))
    case (InTurn(open), MessageStart(_)) => p.(stage := InMessage(open))
    case (InMessage(_), MessageUpdate(_)) => p
    case (InMessage(open), MessageEnd(m)) => Phase(InTurn(open), p.ended + [m])
    case (InTurn(open), ToolStart(id)) => p.(stage := InTurn(open + multiset{id}))
    case (InTurn(open), ToolUpdate(id)) => if id in open then p else p.(stage := Broken)
    case (InTurn(open), ToolEnd(id, _)) =>
      p.(stage := if id in open then InTurn(open - multiset{id}) else Broken)
    case (InTurn(open), TurnEnd(m, results)) =>
      p.(stage := if open == multiset{} && EndsWith(p.ended, [m] + LLMs(results)) then AfterTurn else Broken)
    case (AfterTurn, AgentEnd(messages)) => p.(stage := if messages == p.ended then Finished else Broken)
    case _ => p.(stage := Broken)
  }

  function Trace(events: seq<Event>): Phase {
    if events == [] then Phase(Idle, []) else Advance(Trace(events[..|events| - 1]), events[|events| - 1])
  }

  /** The tool executions of a trace: the ids started, and the outcomes reported at their ends. */
  datatype Tally = Tally(starts: seq<string>, ends: seq<(string, Outcome)>)

  function Count(t: Tally, e: Event): Tally {
    match e
    case ToolStart(id) => t.(starts := t.starts + [id])
    case ToolEnd(id, outcome) => t.(ends := t.ends + [(id, outcome)])
    case _ => t
  }

  function Executions(events: seq<Event>): Tally {
    if events == [] then Tally([], []) else Count(Executions(events[..|events| - 1]), events[|events| - 1])
  }

  /** The messages of the MessageEnd events, in order. */
  function Ended(events: seq<Event>): seq<AgentMessage> {
    if events == [] then []
    else Ended(events[..|events| - 1])
         + (if events[|events| - 1].MessageEnd? then [events[|events| - 1].message] else [])
  }

  /** While the grammar is followed, `ended` is the projection of the MessageEnd events. */
  lemma {:induction false} TraceCollectsEnds(events: seq<Event>)
    requires !Trace(events).stage.Broken?
    ensures Trace(events).ended == Ended(events)
  {
    if events != [] { TraceCollectsEnds(events[..|events| - 1]); }
  }

  /** Once broken, always broken: a run that ends well followed the grammar all along. */
  lemma {:induction false} EveryPrefixFollowsGrammar(events: seq<Event>, n: nat)
    requires n <= |events| && !Trace(events).stage.Broken?
    ensures !Trace(events[..n]).stage.Broken?
    decreases |events|
  {
    if n < |events| {
      EveryPrefixFollowsGrammar(events[..|events| - 1], n);
      assert events[..|events| - 1][..n] == events[..n];
    } else {
      assert events[..n] == events;
    }
  }

  lemma OnlyAgentEndFinishes(p: Phase, e: Event)
    requires Advance(p, e).stage.Finished?
    ensures e == AgentEnd(p.ended) && Advance(p, e).ended == p.ended && !p.stage.Broken?
  {
  }

  /** A run that ends well reports every message it ended. */
  lemma AgentEndReportsAll(events: seq<Event>)
    requires Trace(events).stage.Finished?
    ensures events != [] && events[|events| - 1] == AgentEnd(Ended(events))
  {
    var before, last := events[..|events| - 1], events[|events| - 1];
    OnlyAgentEndFinishes(Trace(before), last);
    TraceCollectsEnds(before);
    assert Ended(before) + [] == Ended(before);
  }
}
