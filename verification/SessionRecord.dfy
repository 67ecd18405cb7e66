/** What a session holds of the runs it records: not the messages the loop ended but what the
    message_end handlers made of them.  When it is a transcript that can be delivered, and
    that the runs which start from it keep it so. */
module SessionRecord {
  import opened Messages
  import opened Transform
  import opened Transcript
  import opened AgentMessages
  import opened LoopScript
  import opened Persistence

  /** What the handlers make of a provider message; its role stays. */
  function Rewritten(m: Message, handlers: seq<Handler>): (r: Message)
    ensures r.role == m.role && AfterHandlers(LLM(m), handlers) == LLM(r)
  {
    QuietHandlersChangeNothing(LLM(m), handlers);
    AfterHandlers(LLM(m), handlers).message
  }

  /** What a session records of some ended messages. */
  function Stored(ms: seq<AgentMessage>, handlers: seq<Handler>): (out: seq<AgentMessage>)
    ensures |out| == |ms| && forall k | 0 <= k < |ms| :: out[k] == AfterHandlers(ms[k], handlers)
  {
    seq(|ms|, k requires 0 <= k < |ms| => AfterHandlers(ms[k], handlers))
  }

  // ---- handlers that keep transcripts orderly ---------------------------------------------------

  /** A reply that an orderly transcript may hold. */
  ghost predicate Acceptable(m: Message) {
    m.role.Assistant? && (Failed(m) || NoDuplicates(Calls(m)))
  }

  /** Acceptable replies stay acceptable, a result of a reply's call stays the result of a call
      of what the reply became, and results of different calls stay so. */
  ghost predicate KeepsOrder(handlers: seq<Handler>) {
    && (forall m: Message | Acceptable(m) :: Acceptable(Rewritten(m, handlers)))
    && (forall m: Message, r: Message | Acceptable(m) && r.role.ToolResult? && r.toolCallID in Opens(m) ::
          Rewritten(r, handlers).toolCallID in Opens(Rewritten(m, handlers)))
    && (forall r: Message, s: Message | r.role.ToolResult? && s.role.ToolResult? && r.toolCallID != s.toolCallID ::
          Rewritten(r, handlers).toolCallID != Rewritten(s, handlers).toolCallID)
  }

  /** The second transcript is the first with its replies and results rewritten. */
  ghost predicate Mirrors(a: seq<Message>, b: seq<Message>, handlers: seq<Handler>) {
    && |a| == |b|
    && forall k | 0 <= k < |a| :: b[k] == Rewritten(a[k], handlers) || (a[k].role.User? && b[k].role.User?)
  }

  /** Results of the calls open before answer calls open after the rewriting. */
  ghost predicate Carries(open: set<string>, kept: set<string>, handlers: seq<Handler>) {
    forall r: Message | r.role.ToolResult? && r.toolCallID in open :: Rewritten(r, handlers).toolCallID in kept
  }

  lemma MirrorsTail(a: seq<Message>, b: seq<Message>, handlers: seq<Handler>)
    requires Mirrors(a, b, handlers) && a != []
    ensures Mirrors(a[1..], b[1..], handlers) && b != [] && b[0].role == a[0].role
    ensures !a[0].role.User? ==> b[0] == Rewritten(a[0], handlers)
  {
    assert forall k | 0 <= k < |a[1..]| :: a[1..][k] == a[k + 1] && b[1..][k] == b[k + 1];
  }

  lemma CarriesLess(open: set<string>, kept: set<string>, m: Message, handlers: seq<Handler>)
    requires KeepsOrder(handlers) && Carries(open, kept, handlers) && m.role.ToolResult? && m.toolCallID in open
    ensures Rewritten(m, handlers).toolCallID in kept
    ensures Carries(open - {m.toolCallID}, kept - {Rewritten(m, handlers).toolCallID}, handlers)
  {
  }

  lemma CarriesReply(m: Message, handlers: seq<Handler>)
    requires KeepsOrder(handlers) && Acceptable(m)
    ensures Acceptable(Rewritten(m, handlers)) && Carries(Opens(m), Opens(Rewritten(m, handlers)), handlers)
  {
  }

  lemma {:induction false} MirrorIsOrderly(a: seq<Message>, b: seq<Message>, open: set<string>, kept: set<string>,
                                           handlers: seq<Handler>)
    requires KeepsOrder(handlers) && Mirrors(a, b, handlers) && Carries(open, kept, handlers)
    requires Orderly(open, a)
    ensures Orderly(kept, b)
    decreases |a|
  {
    if a != [] {
      var m, n := a[0], b[0];
      MirrorsTail(a, b, handlers);
      hide Rewritten;
      hide Mirrors;
      match m.role
      case ToolResult =>
        CarriesLess(open, kept, m, handlers);
        MirrorIsOrderly(a[1..], b[1..], open - {m.toolCallID}, kept - {n.toolCallID}, handlers);
      case OtherRole(_) => MirrorIsOrderly(a[1..], b[1..], open, kept, handlers);
      case User => MirrorIsOrderly(a[1..], b[1..], {}, {}, handlers);
      case Assistant =>
        CarriesReply(m, handlers);
        MirrorIsOrderly(a[1..], b[1..], Opens(m), Opens(n), handlers);
    }
  }

  lemma {:induction false} StoredMirrors(ms: seq<AgentMessage>, handlers: seq<Handler>)
    ensures Mirrors(ProjectAll(ms), ProjectAll(Stored(ms, handlers)), handlers)
  {
    if ms != [] {
      var n := |ms| - 1;
      assert Stored(ms, handlers)[..n] == Stored(ms[..n], handlers);
      StoredMirrors(ms[..n], handlers);
      OneMirrors(ms[n], handlers);
      JoinMirrors(ProjectAll(ms[..n]), ProjectAll(Stored(ms[..n], handlers)), Project(ms[n]),
                  Project(AfterHandlers(ms[n], handlers)), handlers);
    }
  }

  lemma OneMirrors(m: AgentMessage, handlers: seq<Handler>)
    ensures Mirrors(Project(m), Project(AfterHandlers(m, handlers)), handlers)
  {
    QuietHandlersChangeNothing(m, handlers);
    if m.LLM? { assert AfterHandlers(m, handlers) == LLM(Rewritten(m.message, handlers)); }
  }

  lemma JoinMirrors(a: seq<Message>, b: seq<Message>, c: seq<Message>, d: seq<Message>, handlers: seq<Handler>)
    requires Mirrors(a, b, handlers) && Mirrors(c, d, handlers)
    ensures Mirrors(a + c, b + d, handlers)
  {
  }

  lemma StoredIsOrderly(ms: seq<AgentMessage>, handlers: seq<Handler>)
    requires KeepsOrder(handlers) && OrderlyContext(ms)
    ensures OrderlyContext(Stored(ms, handlers))
  {
    StoredMirrors(ms, handlers);
    MirrorIsOrderly(ProjectAll(ms), ProjectAll(Stored(ms, handlers)), {}, {}, handlers);
  }

  // ---- and only these do ------------------------------------------------------------------------

  lemma ProjectedReply(m: Message, results: seq<Message>)
    requires m.role.Assistant? && |results| <= 2 && forall k | 0 <= k < |results| :: results[k].role.ToolResult?
    ensures ProjectAll([LLM(m)] + LLMs(results)) == [m] + results
  {
    ProjectReply([], m, results);
    assert [] + [LLM(m)] + LLMs(results) == [LLM(m)] + LLMs(results);
  }

  predicate IsExchange(m: Message, results: seq<Message>) {
    m.role.Assistant? && |results| <= 2 && forall k | 0 <= k < |results| :: results[k].role.ToolResult?
  }

  /** A reply and at most two results that answer different calls of it. */
  ghost predicate InOrderExchange(m: Message, results: seq<Message>) {
    && Acceptable(m)
    && (|results| > 0 ==> results[0].toolCallID in Opens(m))
    && (|results| > 1 ==> results[1].toolCallID in Opens(m) && results[1].toolCallID != results[0].toolCallID)
  }

  lemma ShortIsOrderly(m: Message, results: seq<Message>)
    requires IsExchange(m, results)
    ensures Orderly({}, [m] + results) <==> InOrderExchange(m, results)
  {
    StartsWith(m, results);
    if |results| == 1 {
      OneResult(Opens(m), results[0]);
      assert results == [results[0]];
    } else if |results| == 2 {
      StartsWith(results[0], [results[1]]);
      OneResult(Opens(m) - {results[0].toolCallID}, results[1]);
      assert results == [results[0]] + [results[1]];
    }
  }

  lemma OneResult(open: set<string>, r: Message)
    requires r.role.ToolResult?
    ensures Orderly(open, [r]) <==> r.toolCallID in open
  {
    assert [r][1..] == [];
  }

  function RewrittenAll(ms: seq<Message>, handlers: seq<Handler>): (out: seq<Message>)
    ensures |out| == |ms| && forall k | 0 <= k < |ms| :: out[k] == Rewritten(ms[k], handlers)
  {
    seq(|ms|, k requires 0 <= k < |ms| => Rewritten(ms[k], handlers))
  }

  lemma ExchangeIsStored(m: Message, results: seq<Message>, handlers: seq<Handler>)
    requires IsExchange(m, results)
    ensures OrderlyContext([LLM(m)] + LLMs(results)) <==> InOrderExchange(m, results)
    ensures OrderlyContext(Stored([LLM(m)] + LLMs(results), handlers))
        <==> InOrderExchange(Rewritten(m, handlers), RewrittenAll(results, handlers))
  {
    var n, others := Rewritten(m, handlers), RewrittenAll(results, handlers);
    assert Stored([LLM(m)] + LLMs(results), handlers) == [LLM(n)] + LLMs(others);
    hide Orderly;
    hide Rewritten;
    ProjectedReply(m, results);
    ShortIsOrderly(m, results);
    ProjectedReply(n, others);
    ShortIsOrderly(n, others);
  }

  ghost predicate KeepsAllOrderly(handlers: seq<Handler>) {
    forall ms: seq<AgentMessage> | OrderlyContext(ms) :: OrderlyContext(Stored(ms, handlers))
  }

  lemma NeedsExchange(m: Message, results: seq<Message>, handlers: seq<Handler>)
    requires KeepsAllOrderly(handlers) && IsExchange(m, results) && InOrderExchange(m, results)
    ensures InOrderExchange(Rewritten(m, handlers), RewrittenAll(results, handlers))
  {
    ExchangeIsStored(m, results, handlers);
  }

  /** A reply with just two calls. */
  function Caller(first: string, second: string): (m: Message)
    ensures m.role.Assistant? && !Failed(m) && Calls(m) == [first, second]
  {
    var content := [ToolCall(first, "", "", ""), ToolCall(second, "", "", "")];
    assert content[1..] == [content[1]] && content[1..][1..] == [];
    assert ToolCalls(content[1..]) == [content[1]] + [];
    assert ToolCalls(content) == [content[0]] + [content[1]] == content;
    UserMessage(content, 0).(role := Assistant)
  }

  lemma OrderIsNeeded(handlers: seq<Handler>)
    requires KeepsAllOrderly(handlers)
    ensures KeepsOrder(handlers)
  {
    hide KeepsAllOrderly;
    hide Rewritten;
    forall m: Message | Acceptable(m) ensures Acceptable(Rewritten(m, handlers)) { NeedsExchange(m, [], handlers); }
    forall m: Message, r: Message | Acceptable(m) && r.role.ToolResult? && r.toolCallID in Opens(m)
      ensures Rewritten(r, handlers).toolCallID in Opens(Rewritten(m, handlers))
    {
      NeedsExchange(m, [r], handlers);
    }
    forall r: Message, s: Message | r.role.ToolResult? && s.role.ToolResult? && r.toolCallID != s.toolCallID
      ensures Rewritten(r, handlers).toolCallID != Rewritten(s, handlers).toolCallID
    {
      CallerOpens(r.toolCallID, s.toolCallID);
      NeedsExchange(Caller(r.toolCallID, s.toolCallID), [r, s], handlers);
    }
  }

  lemma CallerOpens(first: string, second: string)
    requires first != second
    ensures Acceptable(Caller(first, second)) && Opens(Caller(first, second)) == {first, second}
  {
  }

  /** Every orderly transcript is recorded as an orderly one exactly when the handlers keep order. */
  lemma RecordsStayOrderlyExactlyWhen(handlers: seq<Handler>)
    ensures KeepsAllOrderly(handlers) <==> KeepsOrder(handlers)
  {
    hide KeepsOrder;
    if KeepsOrder(handlers) {
      forall ms: seq<AgentMessage> | OrderlyContext(ms) ensures OrderlyContext(Stored(ms, handlers)) {
        StoredIsOrderly(ms, handlers);
      }
    }
    if KeepsAllOrderly(handlers) { OrderIsNeeded(handlers); }
  }

  /** A handler that touches neither a result's call id, nor a reply's calls, nor whether it
      failed. */
  ghost predicate Gentle(h: Handler) {
    forall m: Message :: SameBones(LLM(m), AfterHandler(LLM(m), h))
  }

  predicate SameBones(a: AgentMessage, b: AgentMessage) {
    a.LLM? && b.LLM?
    && a.message.toolCallID == b.message.toolCallID
    && Calls(a.message) == Calls(b.message) && Failed(a.message) == Failed(b.message)
  }

  lemma {:induction false} GentleChain(m: Message, handlers: seq<Handler>)
    requires forall k | 0 <= k < |handlers| :: Gentle(handlers[k])
    ensures SameBones(LLM(m), AfterHandlers(LLM(m), handlers))
  {
    if handlers != [] {
      var before := handlers[..|handlers| - 1];
      GentleChain(m, before);
      assert Gentle(handlers[|handlers| - 1]);
      assert AfterHandlers(LLM(m), before) == LLM(Rewritten(m, before));
    }
  }

  /** Handlers that are gentle, each for itself, keep order together. */
  lemma GentleHandlersKeepOrder(handlers: seq<Handler>)
    requires forall k | 0 <= k < |handlers| :: Gentle(handlers[k])
    ensures KeepsOrder(handlers)
  {
    forall m: Message ensures SameBones(LLM(m), LLM(Rewritten(m, handlers))) { GentleChain(m, handlers); }
    hide Rewritten;
    hide Gentle;
  }

  /** A handler that replaces the content of every reply by a text. */
  function Replacing(text: string): Handler {
    (m: AgentMessage) =>
      if IsAssistant(m) then Replaces(LLM(m.message.(content := [Text(text, "")]))) else NoReplacement
  }

  /** Such a handler has nothing to complain of and leaves a stray result in the session: the
      loop's messages are orderly, their record is not, and its repair is no legal transcript. */
  lemma ReplacedReplyStraysResult(reply: Message, result: Message, text: string, now: int)
    requires reply.role.Assistant? && !Failed(reply) && Calls(reply) == ["a"]
    requires result.role.ToolResult? && result.toolCallID == "a"
    ensures
      var ended, handlers := [LLM(reply)] + LLMs([result]), [Replacing(text)];
      && OrderlyContext(ended) && !OrderlyContext(Stored(ended, handlers))
      && !Legal({}, Repair(ProjectAll(Stored(ended, handlers)), [], {}, now))
      && Complaints(LLM(reply), handlers) == [] == Complaints(LLM(result), handlers)
  {
    var ended, handlers := [LLM(reply)] + LLMs([result]), [Replacing(text)];
    ReplacingActs(reply, text);
    ReplacingActs(result, text);
    ExchangeIsStored(reply, [result], handlers);
    assert !InOrderExchange(Rewritten(reply, handlers), RewrittenAll([result], handlers));
    assert Owed([], {}) == {};
    RepairIsLegalIffOrderly(ProjectAll(Stored(ended, handlers)), [], {}, now);
  }

  lemma ReplacingActs(m: Message, text: string)
    ensures Complaints(LLM(m), [Replacing(text)]) == []
    ensures Rewritten(m, [Replacing(text)]) == if m.role.Assistant? then m.(content := [Text(text, "")]) else m
    ensures Calls(m.(content := [Text(text, "")])) == []
  {
    var handlers := [Replacing(text)];
    var content := [Block.Text(text, "")];
    assert handlers[..0] == [] && content[1..] == [] && ToolCalls(content) == [];
    assert AfterHandlers(LLM(m), []) == LLM(m);
    assert AfterHandlers(LLM(m), handlers) == AfterHandler(LLM(m), handlers[0]);
  }

  // ---- the harness rebuilds the context from the session ------------------------------------------

  /** Replies are the provider's, and what is injected is the user's. */
  ghost predicate FairTurn(t: TurnScript) {
    GoodReply(ReplyOf(t.stream)) && GoodFetch(t.steering) && GoodFetch(t.followUps)
  }

  ghost predicate FairScript(script: seq<TurnScript>) {
    forall k | 0 <= k < |script| :: FairTurn(script[k])
  }

  /** A context that is swapped in after the turn is what the session holds then: what it began
      with and what the handlers made of the run's messages so far. */
  predicate RebuildsAt(w: World, j: Journal, pending: seq<AgentMessage>, t: TurnScript, base: seq<AgentMessage>,
                       handlers: seq<Handler>)
  {
    t.next.ReplaceContext? ==>
      t.next.context == base + Stored(TurnOf(w, j, pending, t).log.newMessages, handlers)
  }

  /** So it is after every turn that the loop gets to. */
  predicate Rebuilds(w: World, j: Journal, pending: seq<AgentMessage>, script: seq<TurnScript>, base: seq<AgentMessage>,
                     handlers: seq<Handler>)
    decreases |script|
  {
    script == []
    || (&& RebuildsAt(w, j, pending, script[0], base, handlers)
        && var t := TurnOf(w, j, pending, script[0]);
           t.outcome.Continues? ==>
             if t.hasMore || t.steering != [] then Rebuilds(w, t.log, t.steering, script[1..], base, handlers)
             else script[0].followUps.Fetched? && script[0].followUps.messages != [] ==>
               Rebuilds(w, t.log, script[0].followUps.messages, script[1..], base, handlers))
  }

  lemma RecordBehind(base: seq<AgentMessage>, ms: seq<AgentMessage>, handlers: seq<Handler>)
    requires OrderlyContext(base) && OrderlyContext(ms) && KeepsOrder(handlers)
    ensures OrderlyContext(base + Stored(ms, handlers))
  {
    StoredIsOrderly(ms, handlers);
    ProjectConcat(base, Stored(ms, handlers));
    MoreOpen({}, OpenAfter({}, ProjectAll(base)), ProjectAll(Stored(ms, handlers)));
    OrderlyConcat({}, ProjectAll(base), ProjectAll(Stored(ms, handlers)));
  }

  /** Calls that are open besides do no harm. */
  lemma {:induction false} MoreOpen(open: set<string>, more: set<string>, ms: seq<Message>)
    requires open <= more && Orderly(open, ms)
    ensures Orderly(more, ms)
    decreases |ms|
  {
    if ms != [] {
      if ms[0].role.ToolResult? {
        MoreOpen(open - {ms[0].toolCallID}, more - {ms[0].toolCallID}, ms[1..]);
      } else if ms[0].role.OtherRole? {
        MoreOpen(open, more, ms[1..]);
      }
    }
  }

  /** The messages of a turn do not depend on the context it swaps in. */
  lemma KeptContext(w: World, j: Journal, pending: seq<AgentMessage>, t: TurnScript)
    requires t.next.ReplaceContext?
    ensures TurnOf(w, j, pending, t.(next := KeepContext)).log.newMessages == TurnOf(w, j, pending, t).log.newMessages
  {
    hide Answered;
  }

  lemma RebuiltTurnInOrder(w: World, j: Journal, pending: seq<AgentMessage>, t: TurnScript, base: seq<AgentMessage>,
                           handlers: seq<Handler>)
    requires InOrder(j, []) && OrderlyContext(base) && KeepsOrder(handlers)
    requires FairTurn(t) && AllInjectable(pending) && RebuildsAt(w, j, pending, t, base, handlers)
    ensures var r := TurnOf(w, j, pending, t); InOrder(r.log, []) && AllInjectable(r.steering)
  {
    hide TurnOf;
    hide KeepsOrder;
    if t.next.ReplaceContext? {
      TurnInOrder(w, j, pending, t.(next := KeepContext), []);
      KeptContext(w, j, pending, t);
      var ms := TurnOf(w, j, pending, t).log.newMessages;
      assert [] + ms == ms;
      RecordBehind(base, ms, handlers);
    }
    TurnInOrder(w, j, pending, t, []);
  }

  lemma {:induction false} RebuiltLoopInOrder(w: World, j: Journal, pending: seq<AgentMessage>, script: seq<TurnScript>,
                                              base: seq<AgentMessage>, handlers: seq<Handler>)
    requires InOrder(j, []) && OrderlyContext(base) && KeepsOrder(handlers)
    requires FairScript(script) && AllInjectable(pending) && Rebuilds(w, j, pending, script, base, handlers)
    ensures InOrder(Loop(w, j, pending, script).log, [])
    decreases |script|
  {
    hide TurnOf;
    hide KeepsOrder;
    hide InOrder;
    if script != [] {
      var t := TurnOf(w, j, pending, script[0]);
      assert FairTurn(script[0]);
      RebuiltTurnInOrder(w, j, pending, script[0], base, handlers);
      assert forall k | 0 <= k < |script[1..]| :: script[1..][k] == script[k + 1];
      if t.outcome.Continues? {
        if t.hasMore || t.steering != [] {
          RebuiltLoopInOrder(w, t.log, t.steering, script[1..], base, handlers);
        } else if script[0].followUps.Fetched? && script[0].followUps.messages != [] {
          RebuiltLoopInOrder(w, t.log, script[0].followUps.messages, script[1..], base, handlers);
        }
      }
    }
  }

  /** A run of the harness: what its script says of it is fair, and every context that is
      swapped in is rebuilt from the session. */
  ghost predicate FairRun(w: World, base: seq<AgentMessage>, prompts: seq<AgentMessage>, initial: Fetch,
                          script: seq<TurnScript>, handlers: seq<Handler>)
  {
    && AllInjectable(prompts) && GoodFetch(initial) && FairScript(script)
    && (initial.Fetched? ==>
          Rebuilds(w, Appended(Journal(base, [], [], 0), prompts), initial.messages, script, base, handlers))
  }

  /** Whatever a run from an orderly session has sent and ended when it stops: its requests can
      be delivered, and so can the session with what the handlers made of the messages. */
  lemma RecordIsDeliverable(w: World, base: seq<AgentMessage>, prompts: seq<AgentMessage>, initial: Fetch,
                            script: seq<TurnScript>, handlers: seq<Handler>, requests: seq<seq<Message>>,
                            ended: seq<AgentMessage>)
    requires OrderlyContext(base) && KeepsOrder(handlers) && FairRun(w, base, prompts, initial, script, handlers)
    requires var log := Whole(w, base, prompts, initial, script).log;
             requests <= log.requests && ended <= log.newMessages
    ensures AllDeliverable(requests)
    ensures OrderlyContext(base + Stored(ended, handlers)) && Deliverable(ProjectAll(base + Stored(ended, handlers)))
  {
    hide KeepsOrder;
    var j, log := Journal(base, [], [], 0), Whole(w, base, prompts, initial, script).log;
    var none: seq<AgentMessage> := [];
    assert none + none == none;
    AppendedInOrder(j, [], prompts);
    if initial.Fetched? {
      RebuiltLoopInOrder(w, Appended(j, prompts), initial.messages, script, base, handlers);
    }
    assert InOrder(log, []);
    assert [] + log.newMessages == log.newMessages;
    forall k | 0 <= k < |requests| ensures Deliverable(requests[k]) {
      assert requests[k] == log.requests[k];
      OrderlyDelivers(requests[k]);
    }
    OrderlyContextPrefix(ended, log.newMessages);
    RecordBehind(base, ended, handlers);
    OrderlyDelivers(ProjectAll(base + Stored(ended, handlers)));
  }

  // ---- runs in succession -------------------------------------------------------------------------

  /** One run of the harness on a session: what it met, what it had sent and ended when it
      stopped, and the failed reply that reports its failure, if it failed. */
  datatype SessionRun = SessionRun(
    world: World,
    prompts: seq<AgentMessage>,
    initial: Fetch,
    script: seq<TurnScript>,
    requests: seq<seq<Message>>,
    ended: seq<AgentMessage>,
    failure: Option<Message>)

  ghost predicate CanHappen(session: seq<AgentMessage>, r: SessionRun, handlers: seq<Handler>) {
    && FairRun(r.world, session, r.prompts, r.initial, r.script, handlers)
    && (var log := Whole(r.world, session, r.prompts, r.initial, r.script).log;
        r.requests <= log.requests && r.ended <= log.newMessages)
    && (r.failure.Some? ==> r.failure.value.role.Assistant? && Failed(r.failure.value))
  }

  /** The session behind a run. */
  function Behind(session: seq<AgentMessage>, r: SessionRun, handlers: seq<Handler>): seq<AgentMessage> {
    session + Stored(r.ended, handlers)
    + (if r.failure.Some? then Stored([LLM(r.failure.value)], handlers) else [])
  }

  function SessionAfter(session: seq<AgentMessage>, runs: seq<SessionRun>, handlers: seq<Handler>): seq<AgentMessage>
    decreases |runs|
  {
    if runs == [] then session else SessionAfter(Behind(session, runs[0], handlers), runs[1..], handlers)
  }

  ghost predicate AllHappen(session: seq<AgentMessage>, runs: seq<SessionRun>, handlers: seq<Handler>)
    decreases |runs|
  {
    runs == []
    || (CanHappen(session, runs[0], handlers) && AllHappen(Behind(session, runs[0], handlers), runs[1..], handlers))
  }

  lemma RunKeepsSession(session: seq<AgentMessage>, r: SessionRun, handlers: seq<Handler>)
    requires OrderlyContext(session) && KeepsOrder(handlers) && CanHappen(session, r, handlers)
    ensures AllDeliverable(r.requests) && OrderlyContext(Behind(session, r, handlers))
  {
    hide KeepsOrder;
    hide Whole;
    hide FairRun;
    RecordIsDeliverable(r.world, session, r.prompts, r.initial, r.script, handlers, r.requests, r.ended);
    var recorded := session + Stored(r.ended, handlers);
    if r.failure.Some? {
      var failed := [LLM(r.failure.value)];
      assert failed + LLMs([]) == failed;
      ExchangeIsStored(r.failure.value, [], handlers);
      RecordBehind(recorded, failed, handlers);
    } else {
      assert recorded + [] == recorded;
    }
  }

  /** Over any succession of runs on one session, failed ones included, every request can be
      delivered and the session stays a transcript that can be. */
  lemma {:induction false} SuccessiveRunsDeliver(session: seq<AgentMessage>, runs: seq<SessionRun>,
                                                 handlers: seq<Handler>)
    requires OrderlyContext(session) && KeepsOrder(handlers) && AllHappen(session, runs, handlers)
    ensures forall k | 0 <= k < |runs| :: AllDeliverable(runs[k].requests)
    ensures OrderlyContext(SessionAfter(session, runs, handlers))
    ensures Deliverable(ProjectAll(SessionAfter(session, runs, handlers)))
    decreases |runs|
  {
    hide KeepsOrder;
    hide CanHappen;
    hide Deliverable;
    hide Behind;
    OrderlyDelivers(ProjectAll(session));
    if runs != [] {
      RunKeepsSession(session, runs[0], handlers);
      SuccessiveRunsDeliver(Behind(session, runs[0], handlers), runs[1..], handlers);
      assert forall k | 0 < k < |runs| :: runs[k] == runs[1..][k - 1];
    }
  }
}
