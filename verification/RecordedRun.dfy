/** One run of the agent loop with its event sink: what the session holds afterwards. */
module RecordedRun {
  import opened Messages
  import opened AgentMessages
  import opened LoopEvents
  import opened LoopScript
  import opened AgentLoop
  import opened Persistence
  import opened SessionRecord

  function MessagesIn(session: seq<Annotated>): (out: seq<AgentMessage>)
    ensures |out| == |session| && forall k | 0 <= k < |session| :: out[k] == session[k].message
  {
    seq(|session|, k requires 0 <= k < |session| => session[k].message)
  }

  /** The sink takes the events of the run in order.  Whatever becomes of the run, the session
      gets what the handlers made of each message it ended, in order; the final event of a
      completed one reports exactly that unless a message is mistaken for another.  A session
      that could be delivered still can when the handlers keep order. */
  method PromptAndRecord(
      run: AgentRun, sink: EventSinkState, address: nat -> nat, handlers: seq<Handler>,
      prompts: seq<AgentMessage>, script: seq<TurnScript>, initialSteering: Fetch)
    returns (status: Status, reported: Option<seq<Annotated>>)
    requires run.events == [] && run.newMessages == [] && run.requests == [] && run.checks == 0
    requires sink.Valid() && sink.log == [] && sink.session == []
    modifies run, sink
    ensures run.Follows(status, Whole(run.world, old(run.context), prompts, initialSteering, script))
    ensures sink.log == Decisions(Ended(run.events), address, handlers)
    ensures |sink.session| == |Ended(run.events)|
    ensures forall i | 0 <= i < |sink.session| :: sink.session[i] == Annotate(Ended(run.events)[i], handlers)
    ensures status.Completed? ==> Ended(run.events) == run.newMessages
    ensures status.Completed? && Unmistaken(sink.log) ==> reported == Some(sink.session)
    ensures MessagesIn(sink.session) == Stored(Ended(run.events), handlers)
    ensures KeepsOrder(handlers) && OrderlyContext(old(run.context))
            && FairRun(run.world, old(run.context), prompts, initialSteering, script, handlers) ==>
              && AllDeliverable(run.requests) && OrderlyContext(old(run.context) + MessagesIn(sink.session))
              && Deliverable(ProjectAll(old(run.context) + MessagesIn(sink.session)))
  {
    hide Whole;
    hide KeepsOrder;
    hide FairRun;
    ghost var base := run.context;
    status := run.Run(prompts, script, initialSteering);
    TraceCollects(run.events);
    FollowingEnds(run, status, Whole(run.world, base, prompts, initialSteering, script));
    reported := sink.ConsumeRun(run.events, address, handlers);
    assert MessagesIn(sink.session) == Stored(Ended(run.events), handlers);
    if KeepsOrder(handlers) && OrderlyContext(base)
       && FairRun(run.world, base, prompts, initialSteering, script, handlers) {
      RecordIsDeliverable(run.world, base, prompts, initialSteering, script, handlers, run.requests, Ended(run.events));
    }
  }

  lemma TraceCollects(events: seq<Event>)
    ensures !Trace(events).stage.Broken? ==> Trace(events).ended == Ended(events)
  {
    if !Trace(events).stage.Broken? { TraceCollectsEnds(events); }
  }

  /** What a run has sent and ended is the beginning of what its script comes to. */
  lemma FollowingEnds(run: AgentRun, status: Status, r: RunResult)
    requires run.Follows(status, r)
    ensures run.requests <= r.log.requests && Ended(run.events) <= r.log.newMessages
  {
    TraceCollects(run.events);
  }

  function FailureEvents(failure: Message): seq<Event> {
    [MessageStart(LLM(failure)), MessageEnd(LLM(failure)), TurnEnd(LLM(failure), []), AgentEnd([LLM(failure)])]
  }

  lemma FailureEnds(failure: Message)
    ensures Ended(FailureEvents(failure)) == [LLM(failure)]
  {
    var events := FailureEvents(failure);
    assert events[..3] == events[..2] + [events[2]] && events[..2] == events[..1] + [events[1]];
    assert events[..1] == [] + [events[0]] && events == events[..3] + [events[3]];
    assert Ended(events[..1]) == [] && Ended(events[..2]) == [LLM(failure)];
    assert Ended(events[..3]) == [LLM(failure)];
  }

  /** The harness: a failed run is reported by a failed reply of its own, through a sink of its
      own.  What the session holds then is one step of a succession of runs. */
  method RunHarness(
      run: AgentRun, sink: EventSinkState, failureSink: EventSinkState, address: nat -> nat, handlers: seq<Handler>,
      prompts: seq<AgentMessage>, script: seq<TurnScript>, initialSteering: Fetch, failure: Message)
    returns (status: Status, ghost made: SessionRun)
    requires run.events == [] && run.newMessages == [] && run.requests == [] && run.checks == 0
    requires sink.Valid() && sink.log == [] && sink.session == []
    requires failureSink.Valid() && failureSink.log == [] && failureSink.session == [] && sink != failureSink
    requires failure.role.Assistant? && Failed(failure)
    modifies run, sink, failureSink
    ensures made == SessionRun(run.world, prompts, initialSteering, script, run.requests, Ended(run.events),
                               if status.RunFailed? then Some(failure) else None)
    ensures FairRun(run.world, old(run.context), prompts, initialSteering, script, handlers) ==>
              CanHappen(old(run.context), made, handlers)
    ensures Behind(old(run.context), made, handlers)
         == old(run.context) + MessagesIn(sink.session) + MessagesIn(failureSink.session)
  {
    hide Whole;
    hide FairRun;
    hide KeepsOrder;
    var reported;
    ghost var base := run.context;
    status, reported := PromptAndRecord(run, sink, address, handlers, prompts, script, initialSteering);
    FollowingEnds(run, status, Whole(run.world, base, prompts, initialSteering, script));
    made := SessionRun(run.world, prompts, initialSteering, script, run.requests, Ended(run.events),
                       if status.RunFailed? then Some(failure) else None);
    if status.RunFailed? {
      FailureEnds(failure);
      reported := failureSink.ConsumeRun(FailureEvents(failure), address, handlers);
      assert MessagesIn(failureSink.session) == Stored([LLM(failure)], handlers);
    } else {
      assert MessagesIn(failureSink.session) == [];
    }
  }
}
