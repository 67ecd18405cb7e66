/** What a run of the agent loop meets, as data, and what it comes to while its event sink
    accepts everything: provider streams, hooks, injected messages and a cancellation are
    given, so what is proved here holds for all of them. */
module LoopScript {
  import opened Messages
  import opened Transform
  import opened Transcript
  import opened AgentMessages
  import opened LoopEvents

  // ---- tools and hooks -----------------------------------------------------------

  datatype Tool = Tool(name: string, sequential: bool)
  datatype Validation = ValidArgs(arguments: string) | InvalidArgs(error: string)
  datatype Before = BeforeFails(error: string) | Blocks(reason: string) | Proceeds(arguments: Option<string>)
  datatype Run = RunFails(error: string, updates: nat) | Ran(outcome: Outcome, updates: nat)
  datatype After =
    | AfterFails(error: string)
    | Patch(content: Option<seq<Block>>, details: Option<string>, isError: Option<bool>, terminate: Option<bool>)

  /** Tools and hooks without state of their own. */
  datatype ToolBox = ToolBox(
    tools: seq<Tool>,
    sequentialMode: bool,
    validate: Block -> Validation,
    before: Option<(Block, string) -> Before>,
    run: (Block, string) -> Run,
    after: Option<(Block, string, Outcome) -> After>)

  datatype Prepared = Immediate(call: Block, outcome: Outcome) | Ready(call: Block, arguments: string)

  function ErrorOutcome(text: string): Outcome {
    Outcome([Text(text, "")], "{}", true, false)
  }

  predicate Known(box: ToolBox, call: Block)
    requires call.ToolCall?
  {
    exists t <- box.tools :: t.name == call.name
  }

  /** What preparing a call gives when nobody cancels. */
  function Preparation(box: ToolBox, call: Block): Prepared
    requires call.ToolCall?
  {
    if !Known(box, call) then Immediate(call, ErrorOutcome("Tool " + call.name + " not found"))
    else match box.validate(call)
      case InvalidArgs(error) => Immediate(call, ErrorOutcome(error))
      case ValidArgs(arguments) =>
        if box.before.None? then Ready(call, arguments)
        else match box.before.value(call, arguments)
          case BeforeFails(error) => Immediate(call, ErrorOutcome(error))
          case Blocks(reason) =>
            Immediate(call, ErrorOutcome(if reason == "" then "Tool execution was blocked" else reason))
          case Proceeds(replaced) => Ready(call, if replaced.Some? then replaced.value else arguments)
  }

  function Execution(box: ToolBox, p: Prepared): Outcome
    requires p.Ready?
  {
    match box.run(p.call, p.arguments)
    case RunFails(error, _) => ErrorOutcome(error)
    case Ran(outcome, _) => outcome
  }

  /** The outcome after the after-hook has patched it. */
  function Finalized(box: ToolBox, p: Prepared): Outcome
    requires p.Ready?
  {
    var o := Execution(box, p);
    if box.after.None? then o
    else match box.after.value(p.call, p.arguments, o)
      case AfterFails(error) => ErrorOutcome(error)
      case Patch(content, details, isError, terminate) =>
        Outcome(
          if content.Some? then content.value else o.content,
          if details.Some? then details.value else o.details,
          if isError.Some? then isError.value else o.isError,
          if terminate.Some? then terminate.value else o.terminate)
  }

  function OutcomeOf(box: ToolBox, p: Prepared): Outcome {
    match p case Immediate(_, o) => o case Ready(_, _) => Finalized(box, p)
  }

  function ResultMessage(call: Block, o: Outcome, now: int): Message
    requires call.ToolCall?
  {
    Message(ToolResult, o.content, now, "", "", "", "", Unset, "", call.id, call.name, o.isError, o.details)
  }

  predicate AreCalls(calls: seq<Block>) {
    forall c <- calls :: c.ToolCall?
  }

  /** Whether the context counts as cancelled at its `n`th check. */
  predicate Cancelling(cancelAt: Option<nat>, n: nat) {
    cancelAt.Some? && cancelAt.value <= n
  }

  function AbortedCall(call: Block): Prepared {
    Immediate(call, ErrorOutcome("Operation aborted"))
  }

  function ReadyUnless(call: Block, arguments: string, cancelAt: Option<nat>, n: nat): (Prepared, nat) {
    (if Cancelling(cancelAt, n) then AbortedCall(call) else Ready(call, arguments), n + 1)
  }

  /** Preparing a call when the context has been checked `n` times, and the count after it. */
  function Prepare(box: ToolBox, call: Block, cancelAt: Option<nat>, n: nat): (r: (Prepared, nat))
    requires call.ToolCall?
    ensures r.0.call == call
  {
    if !Known(box, call) then (Immediate(call, ErrorOutcome("Tool " + call.name + " not found")), n)
    else match box.validate(call)
      case InvalidArgs(error) => (Immediate(call, ErrorOutcome(error)), n)
      case ValidArgs(arguments) =>
        if box.before.None? then ReadyUnless(call, arguments, cancelAt, n)
        else match box.before.value(call, arguments)
          case BeforeFails(error) => (Immediate(call, ErrorOutcome(error)), n)
          case Blocks(reason) =>
            (if Cancelling(cancelAt, n) then AbortedCall(call)
             else Immediate(call, ErrorOutcome(if reason == "" then "Tool execution was blocked" else reason)),
             n + 1)
          case Proceeds(replaced) =>
            if Cancelling(cancelAt, n) then (AbortedCall(call), n + 1)
            else ReadyUnless(call, if replaced.Some? then replaced.value else arguments, cancelAt, n + 1)
  }

  /** The calls of a batch that are prepared before it is found cancelled. */
  function Batch(box: ToolBox, calls: seq<Block>, cancelAt: Option<nat>, n: nat): (r: (seq<Prepared>, nat))
    requires AreCalls(calls)
    ensures |r.0| <= |calls| && (calls != [] ==> r.0 != [])
    ensures forall k | 0 <= k < |r.0| :: r.0[k].call == calls[k]
  {
    if calls == [] then ([], n)
    else
      var (p, m) := Prepare(box, calls[0], cancelAt, n);
      if Cancelling(cancelAt, m) then ([p], m + 1)
      else
        var (rest, last) := Batch(box, calls[1..], cancelAt, m + 1);
        ([p] + rest, last)
  }

  function Outcomes(box: ToolBox, entries: seq<Prepared>): (out: seq<Outcome>)
    ensures |out| == |entries| && forall k | 0 <= k < |entries| :: out[k] == OutcomeOf(box, entries[k])
  {
    seq(|entries|, k requires 0 <= k < |entries| => OutcomeOf(box, entries[k]))
  }

  function ResultMessages(calls: seq<Block>, outcomes: seq<Outcome>, now: int): (out: seq<Message>)
    requires AreCalls(calls) && |outcomes| <= |calls|
    ensures |out| == |outcomes| && forall k | 0 <= k < |out| :: out[k] == ResultMessage(calls[k], outcomes[k], now)
    ensures AnswersPrefix(calls, out)
  {
    seq(|outcomes|, k requires 0 <= k < |outcomes| => ResultMessage(calls[k], outcomes[k], now))
  }

  predicate ShouldTerminate(outcomes: seq<Outcome>) {
    outcomes != [] && forall o <- outcomes :: o.terminate
  }

  lemma UncancelledPrepare(box: ToolBox, call: Block, n: nat)
    requires call.ToolCall?
    ensures Prepare(box, call, None, n).0 == Preparation(box, call)
  {
  }

  /** Nobody cancels: every call is prepared, on its own merits. */
  lemma {:induction false} UncancelledBatch(box: ToolBox, calls: seq<Block>, n: nat)
    requires AreCalls(calls)
    ensures var entries := Batch(box, calls, None, n).0;
            |entries| == |calls| && forall k | 0 <= k < |calls| :: entries[k] == Preparation(box, calls[k])
  {
    if calls != [] {
      var first := Prepare(box, calls[0], None, n);
      var entries, rest := Batch(box, calls, None, n).0, Batch(box, calls[1..], None, first.1 + 1).0;
      UncancelledPrepare(box, calls[0], n);
      UncancelledBatch(box, calls[1..], first.1 + 1);
      assert entries == [first.0] + rest;
      forall k | 0 <= k < |calls| ensures entries[k] == Preparation(box, calls[k]) {
        if k > 0 { assert entries[k] == rest[k - 1] && calls[k] == calls[1..][k - 1]; }
      }
    }
  }

  // ---- what a run meets ------------------------------------------------------------

  /** One item of a provider stream; a missing message is a nil pointer. */
  datatype StreamItem =
    | StreamFails
    | NilEvent
    | StreamStart(message: Option<Message>)
    | StreamBlock(message: Option<Message>)
    | StreamEnd(message: Option<Message>)

  /** `result` is what the stream reports once iteration is over. */
  datatype StreamScript = StreamScript(items: seq<StreamItem>, result: Option<Message>)

  datatype Fetch = Fetched(messages: seq<AgentMessage>) | FetchFails
  datatype NextTurn = KeepContext | ReplaceContext(context: seq<AgentMessage>) | NextTurnFails
  datatype Stop = GoOn | StopNow | StopFails

  /** What one turn meets, in the order it is met. */
  datatype TurnScript = TurnScript(
    keyFails: bool,
    stream: StreamScript,
    next: NextTurn,
    stop: Stop,
    steering: Fetch,
    followUps: Fetch)

  datatype Status = Completed | RunFailed | OutOfScript

  /** The provider's side of the bargain: replies are assistant messages with
      distinct call ids, and what is injected or swapped in is orderly. */
  ghost predicate GoodReply(m: Option<Message>) {
    m.Some? ==> m.value.role.Assistant? && (Failed(m.value) || NoDuplicates(Calls(m.value)))
  }

  predicate AllInjectable(ms: seq<AgentMessage>) {
    forall k | 0 <= k < |ms| :: Injectable(ms[k])
  }

  predicate GoodFetch(f: Fetch) {
    f.Fetched? ==> AllInjectable(f.messages)
  }

  ghost predicate GoodTurn(t: TurnScript) {
    && GoodReply(ReplyOf(t.stream))
    && (t.next.ReplaceContext? ==> OrderlyContext(t.next.context))
    && GoodFetch(t.steering)
    && GoodFetch(t.followUps)
  }

  ghost predicate GoodScript(script: seq<TurnScript>) {
    forall k | 0 <= k < |script| :: GoodTurn(script[k])
  }

  predicate KeepsContext(script: seq<TurnScript>) {
    forall k | 0 <= k < |script| :: !script[k].next.ReplaceContext?
  }

  // ---- what a run comes to -------------------------------------------------------------

  /** The reply a stream delivers, if any: that of its first end event, else its result. */
  function ReplyOf(s: StreamScript): Option<Message>
    decreases |s.items|
  {
    if s.items == [] || s.items[0].StreamFails? then s.result
    else if s.items[0].StreamEnd? then s.items[0].message
    else ReplyOf(s.(items := s.items[1..]))
  }

  /** What surrounds a run and never changes during it. */
  datatype World = World(box: ToolBox, cancelAt: Option<nat>, now: int)

  /** What a run has built up: its context, its new messages, the requests it sent, and how
      often it looked for a cancellation. */
  datatype Journal = Journal(
    context: seq<AgentMessage>,
    newMessages: seq<AgentMessage>,
    requests: seq<seq<Message>>,
    checks: nat)

  function Appended(j: Journal, ms: seq<AgentMessage>): Journal {
    j.(context := j.context + ms, newMessages := j.newMessages + ms)
  }

  function Asked(j: Journal): Journal {
    j.(requests := j.requests + [ProjectAll(j.context)])
  }

  /** The results of the calls of a reply, and whether they ask for another turn. */
  function Answered(w: World, j: Journal, m: Message): (Journal, bool) {
    var calls := ToolCalls(m.content);
    if calls == [] then (j, false)
    else
      var (entries, checks) := Batch(w.box, calls, w.cancelAt, j.checks);
      var outcomes := Outcomes(w.box, entries);
      (Appended(j, LLMs(ResultMessages(calls, outcomes, w.now))).(checks := checks), !ShouldTerminate(outcomes))
  }

  datatype TurnOutcome = Continues | Ends | Fails

  datatype Turn = Turn(outcome: TurnOutcome, hasMore: bool, steering: seq<AgentMessage>, log: Journal)

  /** The hooks between two turns. */
  function Between(j: Journal, hasMore: bool, t: TurnScript): Turn {
    if t.next.NextTurnFails? then Turn(Fails, hasMore, [], j)
    else
      var d := if t.next.ReplaceContext? then j.(context := t.next.context) else j;
      match t.stop
      case StopFails => Turn(Fails, hasMore, [], d)
      case StopNow => Turn(Ends, hasMore, [], d)
      case GoOn =>
        match t.steering
        case FetchFails => Turn(Fails, hasMore, [], d)
        case Fetched(ms) => Turn(Continues, hasMore, ms, d)
  }

  /** A failed reply ends the run; the calls of another are answered. */
  function AfterReply(w: World, j: Journal, m: Message, t: TurnScript): Turn {
    var b := Appended(j, [LLM(m)]);
    if Failed(m) then Turn(Ends, false, [], b)
    else
      var (c, hasMore) := Answered(w, b, m);
      Between(c, hasMore, t)
  }

  /** One turn: inject what is pending, ask, and answer the calls of the reply. */
  function TurnOf(w: World, j: Journal, pending: seq<AgentMessage>, t: TurnScript): Turn {
    var o := Appended(j, pending);
    if ConvertToLLM(o.context).None? || t.keyFails then Turn(Fails, false, [], o)
    else
      var reply := ReplyOf(t.stream);
      if reply.None? then Turn(Fails, false, [], Asked(o))
      else AfterReply(w, Asked(o), reply.value, t)
  }

  datatype RunResult = RunResult(status: Status, log: Journal)

  /** Turns until no call asks for more and nothing is pending, then once more for every
      batch of follow-ups. */
  function Loop(w: World, j: Journal, pending: seq<AgentMessage>, script: seq<TurnScript>): RunResult
    decreases |script|, 1
  {
    if script == [] then RunResult(OutOfScript, j)
    else
      var t := TurnOf(w, j, pending, script[0]);
      match t.outcome
      case Fails => RunResult(RunFailed, t.log)
      case Ends => RunResult(Completed, t.log)
      case Continues => Onward(w, t.log, t.hasMore, t.steering, script[0].followUps, script[1..])
  }

  function Onward(w: World, j: Journal, hasMore: bool, steering: seq<AgentMessage>, followUps: Fetch,
                  rest: seq<TurnScript>): RunResult
    decreases |rest|, 2
  {
    if hasMore || steering != [] then Loop(w, j, steering, rest)
    else
      match followUps
      case FetchFails => RunResult(RunFailed, j)
      case Fetched(ms) => if ms == [] then RunResult(Completed, j) else Loop(w, j, ms, rest)
  }

  /** A run behind its start, once it has fetched its first steering. */
  function Steered(w: World, j: Journal, initial: Fetch, script: seq<TurnScript>): RunResult {
    match initial
    case FetchFails => RunResult(RunFailed, j)
    case Fetched(ms) => Loop(w, j, ms, script)
  }

  /** A whole run behind some prompts. */
  function Whole(w: World, context: seq<AgentMessage>, prompts: seq<AgentMessage>, initial: Fetch,
                 script: seq<TurnScript>): RunResult
  {
    Steered(w, Appended(Journal(context, [], [], 0), prompts), initial, script)
  }

  lemma LoopUnfolds(w: World, j: Journal, pending: seq<AgentMessage>, script: seq<TurnScript>, t: nat)
    requires t < |script|
    ensures var r, turn := Loop(w, j, pending, script[t..]), TurnOf(w, j, pending, script[t]);
            match turn.outcome
            case Fails => r == RunResult(RunFailed, turn.log)
            case Ends => r == RunResult(Completed, turn.log)
            case Continues =>
              r == Onward(w, turn.log, turn.hasMore, turn.steering, script[t].followUps, script[t + 1..])
  {
    assert script[t..][0] == script[t] && script[t..][1..] == script[t + 1..];
  }

  // ---- what every run keeps ---------------------------------------------------------------

  /** `b` goes on from `a`: it only added messages and requests. */
  predicate GoesOn(a: Journal, b: Journal) {
    a.newMessages <= b.newMessages && a.requests <= b.requests
  }

  lemma AnsweredGoesOn(w: World, j: Journal, m: Message)
    ensures GoesOn(j, Answered(w, j, m).0)
  {
  }

  lemma SteeredGoesOn(w: World, j: Journal, initial: Fetch, script: seq<TurnScript>)
    ensures GoesOn(j, Steered(w, j, initial, script).log)
  {
    if initial.Fetched? { LoopGoesOn(w, j, initial.messages, script); }
  }

  lemma TurnIsInLoop(w: World, j: Journal, pending: seq<AgentMessage>, script: seq<TurnScript>)
    requires script != []
    ensures GoesOn(TurnOf(w, j, pending, script[0]).log, Loop(w, j, pending, script).log)
  {
    var t := TurnOf(w, j, pending, script[0]);
    if t.outcome.Continues? {
      if t.hasMore || t.steering != [] {
        LoopGoesOn(w, t.log, t.steering, script[1..]);
      } else if script[0].followUps.Fetched? {
        LoopGoesOn(w, t.log, script[0].followUps.messages, script[1..]);
      }
    }
  }

  lemma GoesOnFurther(a: Journal, b: Journal, c: Journal)
    requires GoesOn(a, b) && GoesOn(b, c)
    ensures GoesOn(a, c)
  {
  }

  lemma BetweenGoesOn(j: Journal, hasMore: bool, t: TurnScript)
    ensures GoesOn(j, Between(j, hasMore, t).log)
  {
  }

  lemma AfterReplyGoesOn(w: World, j: Journal, m: Message, t: TurnScript)
    ensures GoesOn(Appended(j, [LLM(m)]), AfterReply(w, j, m, t).log)
  {
    var b := Appended(j, [LLM(m)]);
    if !Failed(m) {
      var answered := Answered(w, b, m);
      AnsweredGoesOn(w, b, m);
      BetweenGoesOn(answered.0, answered.1, t);
      GoesOnFurther(b, answered.0, Between(answered.0, answered.1, t).log);
    }
  }

  lemma TurnGoesOn(w: World, j: Journal, pending: seq<AgentMessage>, t: TurnScript)
    ensures GoesOn(Appended(j, pending), TurnOf(w, j, pending, t).log)
  {
    var o := Appended(j, pending);
    if ConvertToLLM(o.context).Some? && !t.keyFails && ReplyOf(t.stream).Some? {
      AfterReplyGoesOn(w, Asked(o), ReplyOf(t.stream).value, t);
    }
  }

  lemma {:induction false} LoopGoesOn(w: World, j: Journal, pending: seq<AgentMessage>, script: seq<TurnScript>)
    ensures GoesOn(j, Loop(w, j, pending, script).log)
    decreases |script|
  {
    if script != [] {
      var t := TurnOf(w, j, pending, script[0]);
      TurnGoesOn(w, j, pending, script[0]);
      if t.outcome.Continues? {
        if t.hasMore || t.steering != [] {
          LoopGoesOn(w, t.log, t.steering, script[1..]);
        } else if script[0].followUps.Fetched? {
          LoopGoesOn(w, t.log, script[0].followUps.messages, script[1..]);
        }
      }
    }
  }

  /** The context is what the run started from and its new messages. */
  predicate Based(j: Journal, base: seq<AgentMessage>) {
    j.context == base + j.newMessages
  }

  lemma AppendedBased(j: Journal, base: seq<AgentMessage>, ms: seq<AgentMessage>)
    requires Based(j, base)
    ensures Based(Appended(j, ms), base)
  {
    assert base + j.newMessages + ms == base + (j.newMessages + ms);
  }

  lemma AfterReplyBased(w: World, j: Journal, m: Message, t: TurnScript, base: seq<AgentMessage>)
    requires Based(j, base) && !t.next.ReplaceContext?
    ensures Based(AfterReply(w, j, m, t).log, base)
  {
    var b := Appended(j, [LLM(m)]);
    AppendedBased(j, base, [LLM(m)]);
    var calls := ToolCalls(m.content);
    if !Failed(m) && calls != [] {
      var entries := Batch(w.box, calls, w.cancelAt, b.checks).0;
      AppendedBased(b, base, LLMs(ResultMessages(calls, Outcomes(w.box, entries), w.now)));
    }
  }

  lemma TurnBased(w: World, j: Journal, pending: seq<AgentMessage>, t: TurnScript, base: seq<AgentMessage>)
    requires Based(j, base) && !t.next.ReplaceContext?
    ensures Based(TurnOf(w, j, pending, t).log, base)
  {
    var o := Appended(j, pending);
    AppendedBased(j, base, pending);
    if ConvertToLLM(o.context).Some? && !t.keyFails && ReplyOf(t.stream).Some? {
      AfterReplyBased(w, Asked(o), ReplyOf(t.stream).value, t, base);
    }
  }

  lemma {:induction false} LoopBased(w: World, j: Journal, pending: seq<AgentMessage>, script: seq<TurnScript>,
                                     base: seq<AgentMessage>)
    requires Based(j, base) && KeepsContext(script)
    ensures Based(Loop(w, j, pending, script).log, base)
    decreases |script|
  {
    if script != [] {
      var t := TurnOf(w, j, pending, script[0]);
      TurnBased(w, j, pending, script[0], base);
      assert forall k | 0 <= k < |script[1..]| :: script[1..][k] == script[k + 1];
      if t.outcome.Continues? {
        if t.hasMore || t.steering != [] {
          LoopBased(w, t.log, t.steering, script[1..], base);
        } else if script[0].followUps.Fetched? {
          LoopBased(w, t.log, script[0].followUps.messages, script[1..], base);
        }
      }
    }
  }

  // ---- when a run goes through --------------------------------------------------------------

  predicate AllConvertible(ms: seq<AgentMessage>) {
    forall k | 0 <= k < |ms| :: Convertible(ms[k])
  }

  predicate Delivers(f: Fetch) {
    f.Fetched? && AllConvertible(f.messages)
  }

  /** Key, stream, hooks and fetches of the turn all deliver. */
  predicate TurnDelivers(t: TurnScript) {
    && !t.keyFails && ReplyOf(t.stream).Some?
    && !t.next.NextTurnFails? && (t.next.ReplaceContext? ==> AllConvertible(t.next.context))
    && !t.stop.StopFails? && Delivers(t.steering) && Delivers(t.followUps)
  }

  lemma TurnGoesThrough(w: World, j: Journal, pending: seq<AgentMessage>, t: TurnScript)
    requires TurnDelivers(t) && AllConvertible(j.context) && AllConvertible(pending)
    ensures var r := TurnOf(w, j, pending, t);
            !r.outcome.Fails? && AllConvertible(r.log.context) && AllConvertible(r.steering)
  {
    var o := Appended(j, pending);
    assert forall m <- o.context :: Convertible(m);
  }

  /** A run whose world delivers does not fail. */
  lemma {:induction false} LoopGoesThrough(w: World, j: Journal, pending: seq<AgentMessage>, script: seq<TurnScript>)
    requires AllConvertible(j.context) && AllConvertible(pending)
    requires forall k | 0 <= k < |script| :: TurnDelivers(script[k])
    ensures !Loop(w, j, pending, script).status.RunFailed?
    decreases |script|
  {
    if script != [] {
      var t := TurnOf(w, j, pending, script[0]);
      assert TurnDelivers(script[0]);
      TurnGoesThrough(w, j, pending, script[0]);
      forall k | 0 <= k < |script[1..]| ensures TurnDelivers(script[1..][k]) { assert TurnDelivers(script[k + 1]); }
      if t.outcome.Continues? {
        if t.hasMore || t.steering != [] {
          LoopGoesThrough(w, t.log, t.steering, script[1..]);
        } else {
          LoopGoesThrough(w, t.log, script[0].followUps.messages, script[1..]);
        }
      }
    }
  }

  // ---- orderly transcripts --------------------------------------------------------------------

  /** For every model and every normaliser that keeps the calls of each reply apart, the
      rewritten messages are a transcript a provider accepts, provided every call has an id
      of its own. */
  ghost predicate Deliverable(ms: seq<Message>) {
    forall model: Model, normalize: Option<Normalizer>, now: int |
      UniqueCalls({}, ms) && InjectiveRenames(ms, model, normalize) ::
      Legal({}, Transformed(ms, model, normalize, now))
  }

  ghost predicate AllOrderly(requests: seq<seq<Message>>) {
    forall k | 0 <= k < |requests| :: Orderly({}, requests[k])
  }

  ghost predicate AllDeliverable(requests: seq<seq<Message>>) {
    forall k | 0 <= k < |requests| :: Deliverable(requests[k])
  }

  lemma OrderlyDelivers(ms: seq<Message>)
    requires Orderly({}, ms)
    ensures Deliverable(ms)
  {
    forall model: Model, normalize: Option<Normalizer>, now: int |
      UniqueCalls({}, ms) && InjectiveRenames(ms, model, normalize)
      ensures Legal({}, Transformed(ms, model, normalize, now))
    {
      TransformedIsLegal(ms, model, normalize, now);
    }
  }

  /** The conversation, cut anywhere, is orderly as well. */
  lemma {:induction false} OrderlyPrefix(open: set<string>, a: seq<Message>, b: seq<Message>)
    requires Orderly(open, a + b)
    ensures Orderly(open, a)
  {
    OrderlyConcat(open, a, b);
  }

  lemma OrderlyContextPrefix(ms: seq<AgentMessage>, longer: seq<AgentMessage>)
    requires ms <= longer && OrderlyContext(longer)
    ensures OrderlyContext(ms)
  {
    assert longer == ms + longer[|ms|..];
    ProjectConcat(ms, longer[|ms|..]);
    OrderlyPrefix({}, ProjectAll(ms), ProjectAll(longer[|ms|..]));
  }

  lemma {:induction false} InjectAllKeepsOrder(context: seq<AgentMessage>, injected: seq<AgentMessage>)
    requires OrderlyContext(context) && AllInjectable(injected)
    ensures OrderlyContext(context + injected)
  {
    if injected == [] {
      assert context + injected == context;
    } else {
      var n := |injected| - 1;
      InjectAllKeepsOrder(context, injected[..n]);
      InjectKeepsOrder(context + injected[..n], injected[n]);
      assert context + injected == context + injected[..n] + [injected[n]];
    }
  }

  /** What the run sent is orderly, and so are its context and its new messages behind
      `base`. */
  ghost predicate InOrder(j: Journal, base: seq<AgentMessage>) {
    AllOrderly(j.requests) && OrderlyContext(j.context) && OrderlyContext(base + j.newMessages)
  }

  lemma InjectBehind(base: seq<AgentMessage>, done: seq<AgentMessage>, ms: seq<AgentMessage>)
    requires OrderlyContext(base + done) && AllInjectable(ms)
    ensures OrderlyContext(base + (done + ms))
  {
    InjectAllKeepsOrder(base + done, ms);
    assert base + done + ms == base + (done + ms);
  }

  lemma ReplyBehind(base: seq<AgentMessage>, done: seq<AgentMessage>, m: Message, results: seq<Message>)
    requires OrderlyContext(base + done) && GoodReply(Some(m))
    requires if Failed(m) then results == [] else AnswersPrefix(ToolCalls(m.content), results)
    ensures OrderlyContext(base + (done + [LLM(m)] + LLMs(results)))
  {
    ReplyKeepsOrder(base + done, m, results);
    assert base + done + [LLM(m)] + LLMs(results) == base + (done + [LLM(m)] + LLMs(results));
  }

  lemma AppendedInOrder(j: Journal, base: seq<AgentMessage>, ms: seq<AgentMessage>)
    requires InOrder(j, base) && AllInjectable(ms)
    ensures InOrder(Appended(j, ms), base)
  {
    InjectAllKeepsOrder(j.context, ms);
    InjectBehind(base, j.newMessages, ms);
  }

  lemma AskedInOrder(j: Journal, base: seq<AgentMessage>)
    requires InOrder(j, base)
    ensures InOrder(Asked(j), base)
  {
  }

  /** A reply and results for the first of its calls. */
  lemma ReplyInOrder(j: Journal, base: seq<AgentMessage>, m: Message, results: seq<Message>)
    requires InOrder(j, base) && GoodReply(Some(m))
    requires if Failed(m) then results == [] else AnswersPrefix(ToolCalls(m.content), results)
    ensures InOrder(Appended(Appended(j, [LLM(m)]), LLMs(results)), base)
  {
    ReplyKeepsOrder(j.context, m, results);
    ReplyBehind(base, j.newMessages, m, results);
  }

  lemma AnsweredInOrder(w: World, j: Journal, m: Message, base: seq<AgentMessage>)
    requires InOrder(j, base) && GoodReply(Some(m)) && !Failed(m)
    ensures InOrder(Answered(w, Appended(j, [LLM(m)]), m).0, base)
  {
    hide Orderly;
    hide Batch;
    var calls := ToolCalls(m.content);
    if calls == [] {
      ReplyInOrder(j, base, m, []);
      assert Appended(Appended(j, [LLM(m)]), LLMs([])) == Appended(j, [LLM(m)]);
    } else {
      var outcomes := Outcomes(w.box, Batch(w.box, calls, w.cancelAt, j.checks).0);
      ReplyInOrder(j, base, m, ResultMessages(calls, outcomes, w.now));
    }
  }

  lemma FailedInOrder(j: Journal, base: seq<AgentMessage>, m: Message)
    requires InOrder(j, base) && GoodReply(Some(m)) && Failed(m)
    ensures InOrder(Appended(j, [LLM(m)]), base)
  {
    ReplyInOrder(j, base, m, []);
    assert Appended(Appended(j, [LLM(m)]), LLMs([])) == Appended(j, [LLM(m)]);
  }

  lemma BetweenIs(j: Journal, hasMore: bool, t: TurnScript)
    ensures var r := Between(j, hasMore, t);
            && (r.log == j || (t.next.ReplaceContext? && r.log == j.(context := t.next.context)))
            && (r.steering == [] || t.steering == Fetched(r.steering))
  {
  }

  lemma ReplacedInOrder(j: Journal, base: seq<AgentMessage>, context: seq<AgentMessage>)
    requires InOrder(j, base) && OrderlyContext(context)
    ensures InOrder(j.(context := context), base)
  {
  }

  lemma AfterReplyInOrder(w: World, j: Journal, m: Message, t: TurnScript, base: seq<AgentMessage>)
    requires InOrder(j, base) && GoodReply(Some(m)) && GoodTurn(t)
    ensures var r := AfterReply(w, j, m, t); InOrder(r.log, base) && AllInjectable(r.steering)
  {
    if Failed(m) {
      FailedInOrder(j, base, m);
    } else {
      var answered := Answered(w, Appended(j, [LLM(m)]), m);
      AnsweredInOrder(w, j, m, base);
      BetweenIs(answered.0, answered.1, t);
      if t.next.ReplaceContext? { ReplacedInOrder(answered.0, base, t.next.context); }
    }
  }

  lemma TurnInOrder(w: World, j: Journal, pending: seq<AgentMessage>, t: TurnScript, base: seq<AgentMessage>)
    requires InOrder(j, base) && GoodTurn(t) && AllInjectable(pending)
    ensures var r := TurnOf(w, j, pending, t); InOrder(r.log, base) && AllInjectable(r.steering)
  {
    var o := Appended(j, pending);
    AppendedInOrder(j, base, pending);
    if ConvertToLLM(o.context).Some? && !t.keyFails {
      AskedInOrder(o, base);
      if ReplyOf(t.stream).Some? { AfterReplyInOrder(w, Asked(o), ReplyOf(t.stream).value, t, base); }
    }
  }

  lemma {:induction false} LoopInOrder(w: World, j: Journal, pending: seq<AgentMessage>, script: seq<TurnScript>,
                                       base: seq<AgentMessage>)
    requires InOrder(j, base) && GoodScript(script) && AllInjectable(pending)
    ensures InOrder(Loop(w, j, pending, script).log, base)
    decreases |script|
  {
    if script != [] {
      var t := TurnOf(w, j, pending, script[0]);
      assert GoodTurn(script[0]);
      TurnInOrder(w, j, pending, script[0], base);
      assert forall k | 0 <= k < |script[1..]| :: script[1..][k] == script[k + 1];
      if t.outcome.Continues? {
        if t.hasMore || t.steering != [] {
          LoopInOrder(w, t.log, t.steering, script[1..], base);
        } else if script[0].followUps.Fetched? {
          LoopInOrder(w, t.log, script[0].followUps.messages, script[1..], base);
        }
      }
    }
  }

  // ---- the promises of a whole run --------------------------------------------------------------

  /** When the stream, the hooks and the fetches deliver and every message has a provider
      form, the run does not fail. */
  lemma WholeGoesThrough(w: World, context: seq<AgentMessage>, prompts: seq<AgentMessage>, initial: Fetch,
                         script: seq<TurnScript>)
    requires AllConvertible(context) && AllConvertible(prompts) && Delivers(initial)
    requires forall k | 0 <= k < |script| :: TurnDelivers(script[k])
    ensures !Whole(w, context, prompts, initial, script).status.RunFailed?
  {
    var j := Appended(Journal(context, [], [], 0), prompts);
    LoopGoesThrough(w, j, initial.messages, script);
  }

  /** Every request of a run, the context it leaves and its new messages behind those it began
      with are transcripts that can be delivered to any provider. */
  lemma WholeIsDeliverable(w: World, context: seq<AgentMessage>, prompts: seq<AgentMessage>, initial: Fetch,
                           script: seq<TurnScript>)
    requires OrderlyContext(context) && AllInjectable(prompts) && GoodFetch(initial) && GoodScript(script)
    ensures var log := Whole(w, context, prompts, initial, script).log;
            && InOrder(log, context) && AllDeliverable(log.requests)
            && Deliverable(ProjectAll(log.context)) && Deliverable(ProjectAll(context + log.newMessages))
  {
    var j, log := Journal(context, [], [], 0), Whole(w, context, prompts, initial, script).log;
    assert context + [] == context;
    AppendedInOrder(j, context, prompts);
    if initial.Fetched? { LoopInOrder(w, Appended(j, prompts), initial.messages, script, context); }
    forall k | 0 <= k < |log.requests| ensures Deliverable(log.requests[k]) { OrderlyDelivers(log.requests[k]); }
    OrderlyDelivers(ProjectAll(log.context));
    OrderlyDelivers(ProjectAll(context + log.newMessages));
  }

  /** Unless a hook swaps the context, a run leaves the old one followed by the new messages. */
  lemma WholeKeepsContext(w: World, context: seq<AgentMessage>, prompts: seq<AgentMessage>, initial: Fetch,
                          script: seq<TurnScript>)
    requires KeepsContext(script)
    ensures var log := Whole(w, context, prompts, initial, script).log;
            log.context == context + log.newMessages && prompts <= log.newMessages
  {
    var j := Appended(Journal(context, [], [], 0), prompts);
    assert context + [] == context && context + prompts == context + ([] + prompts);
    SteeredGoesOn(w, j, initial, script);
    if initial.Fetched? { LoopBased(w, j, initial.messages, script, context); }
  }

  /** What a run that its sink stopped has sent and ended is the beginning of that, and so it
      can be delivered as well. */
  lemma CutShortIsDeliverable(w: World, context: seq<AgentMessage>, prompts: seq<AgentMessage>, initial: Fetch,
                              script: seq<TurnScript>, requests: seq<seq<Message>>, ended: seq<AgentMessage>)
    requires OrderlyContext(context) && AllInjectable(prompts) && GoodFetch(initial) && GoodScript(script)
    requires var log := Whole(w, context, prompts, initial, script).log;
             requests <= log.requests && ended <= log.newMessages
    ensures AllDeliverable(requests) && OrderlyContext(context + ended) && Deliverable(ProjectAll(context + ended))
  {
    var log := Whole(w, context, prompts, initial, script).log;
    WholeIsDeliverable(w, context, prompts, initial, script);
    assert forall k | 0 <= k < |requests| :: requests[k] == log.requests[k];
    OrderlyContextPrefix(context + ended, context + log.newMessages);
    OrderlyDelivers(ProjectAll(context + ended));
  }
}
