/** The transcript-level union of messages and its projection to what a provider
    is sent. */
module AgentMessages {
  import opened Messages
  import opened Transcript

  /** `Custom` without content carries a value of an unsupported type; `Raw` is
      runtime-only. */
  datatype AgentMessage =
    | LLM(message: Message)
    | Bash(text: string, excludeFromContext: bool, timestamp: int)
    | Custom(content: Option<seq<Block>>, timestamp: int)
    | BranchSummary(summary: string, timestamp: int)
    | CompactionSummary(summary: string, timestamp: int)
    | Raw

  const COMPACTION_PREFIX :=
    "The conversation history before this point was compacted into the following summary:\n\n<summary>\n"
  const COMPACTION_SUFFIX := "\n</summary>"
  const BRANCH_PREFIX := "The following is a summary of a branch that this conversation came back from:\n\n<summary>\n"
  const BRANCH_SUFFIX := "</summary>"

  function UserMessage(content: seq<Block>, timestamp: int): Message {
    Message(User, content, timestamp, "", "", "", "", Unset, "", "", "", false, "")
  }

  predicate Convertible(m: AgentMessage) {
    m.Custom? ==> m.content.Some?
  }

  function Project(m: AgentMessage): seq<Message> {
    match m
    case LLM(message) => if message.role.OtherRole? then [] else [message]
    case Bash(text, excluded, ts) => if excluded then [] else [UserMessage([Text(text, "")], ts)]
    case Custom(content, ts) => if content.Some? then [UserMessage(content.value, ts)] else []
    case BranchSummary(summary, ts) => [UserMessage([Text(BRANCH_PREFIX + summary + BRANCH_SUFFIX, "")], ts)]
    case CompactionSummary(summary, ts) =>
      [UserMessage([Text(COMPACTION_PREFIX + summary + COMPACTION_SUFFIX, "")], ts)]
    case Raw => []
  }

  function ProjectAll(ms: seq<AgentMessage>): seq<Message> {
    if ms == [] then [] else ProjectAll(ms[..|ms| - 1]) + Project(ms[|ms| - 1])
  }

  /** The default projection; None is its error. */
  function ConvertToLLM(ms: seq<AgentMessage>): Option<seq<Message>> {
    if forall m <- ms :: Convertible(m) then Some(ProjectAll(ms)) else None
  }

  function LLMs(ms: seq<Message>): (out: seq<AgentMessage>)
    ensures |out| == |ms| && forall k | 0 <= k < |ms| :: out[k] == LLM(ms[k])
  {
    seq(|ms|, k requires 0 <= k < |ms| => LLM(ms[k]))
  }

  lemma {:induction false} ProjectConcat(a: seq<AgentMessage>, b: seq<AgentMessage>)
    ensures ProjectAll(a + b) == ProjectAll(a) + ProjectAll(b)
  {
    if b == [] {
      assert a + b == a;
    } else {
      assert (a + b)[..|a + b| - 1] == a + b[..|b| - 1];
      ProjectConcat(a, b[..|b| - 1]);
    }
  }

  // ---- orderly transcripts, grown at the end ------------------------------------

  /** The calls still open after `ms`. */
  function OpenAfter(open: set<string>, ms: seq<Message>): set<string>
    decreases |ms|
  {
    if ms == [] then open
    else match ms[0].role
      case ToolResult => OpenAfter(open - {ms[0].toolCallID}, ms[1..])
      case OtherRole(_) => OpenAfter(open, ms[1..])
      case _ => OpenAfter(Opens(ms[0]), ms[1..])
  }

  lemma {:induction false} OrderlyConcat(open: set<string>, a: seq<Message>, b: seq<Message>)
    ensures Orderly(open, a + b) <==> Orderly(open, a) && Orderly(OpenAfter(open, a), b)
    decreases |a|
  {
    if a == [] {
      assert a + b == b;
    } else {
      assert (a + b)[0] == a[0] && (a + b)[1..] == a[1..] + b;
      match a[0].role
      case ToolResult => OrderlyConcat(open - {a[0].toolCallID}, a[1..], b);
      case OtherRole(_) => OrderlyConcat(open, a[1..], b);
      case _ => OrderlyConcat(Opens(a[0]), a[1..], b);
    }
  }

  ghost predicate OrderlyContext(ms: seq<AgentMessage>) {
    Orderly({}, ProjectAll(ms))
  }

  /** Messages a caller may inject between turns: neither replies nor results. */
  predicate Injectable(m: AgentMessage) {
    m.LLM? ==> m.message.role.User? || m.message.role.OtherRole?
  }

  lemma InjectKeepsOrder(ms: seq<AgentMessage>, m: AgentMessage)
    requires OrderlyContext(ms) && Injectable(m)
    ensures OrderlyContext(ms + [m])
  {
    assert (ms + [m])[..|ms|] == ms;
    OrderlyConcat({}, ProjectAll(ms), Project(m));
    var p := Project(m);
    if p != [] { assert p[1..] == []; }
  }

  /** Each result answers the call at its position. */
  predicate AnswersPrefix(calls: seq<Block>, results: seq<Message>)
    requires forall c <- calls :: c.ToolCall?
  {
    && |results| <= |calls|
    && forall k | 0 <= k < |results| :: results[k].role.ToolResult? && results[k].toolCallID == calls[k].id
  }

  lemma BatchIsOrderly(open: set<string>, reply: Message, results: seq<Message>)
    requires reply.role.Assistant?
    requires if Failed(reply) then results == []
             else NoDuplicates(Calls(reply)) && AnswersPrefix(ToolCalls(reply.content), results)
    ensures Orderly(open, [reply] + results)
  {
    StartsWith(reply, results);
    if !Failed(reply) {
      ResultsKeepOrder(ToolCalls(reply.content), results, 0);
      assert results[0..] == results && Calls(reply)[0..] == Calls(reply);
    }
  }

  lemma ReplyKeepsOrder(ms: seq<AgentMessage>, reply: Message, results: seq<Message>)
    requires OrderlyContext(ms) && reply.role.Assistant?
    requires if Failed(reply) then results == []
             else NoDuplicates(Calls(reply)) && AnswersPrefix(ToolCalls(reply.content), results)
    ensures OrderlyContext(ms + [LLM(reply)] + LLMs(results))
  {
    var before := ProjectAll(ms);
    BatchIsOrderly(OpenAfter({}, before), reply, results);
    OrderlyConcat({}, before, [reply] + results);
    ProjectReply(ms, reply, results);
  }

  lemma ProjectReply(ms: seq<AgentMessage>, reply: Message, results: seq<Message>)
    requires reply.role.Assistant? && forall m <- results :: m.role.ToolResult?
    ensures ProjectAll(ms + [LLM(reply)] + LLMs(results)) == ProjectAll(ms) + ([reply] + results)
  {
    assert (ms + [LLM(reply)])[..|ms|] == ms;
    ProjectConcat(ms + [LLM(reply)], LLMs(results));
    ProjectResults(results);
  }

  lemma {:induction false} ProjectResults(results: seq<Message>)
    requires forall m <- results :: m.role.ToolResult?
    ensures ProjectAll(LLMs(results)) == results
  {
    if results != [] {
      var n := |results| - 1;
      assert LLMs(results)[..n] == LLMs(results[..n]);
      ProjectResults(results[..n]);
      assert results == results[..n] + [results[n]];
    }
  }

  lemma {:induction false} ResultsKeepOrder(calls: seq<Block>, results: seq<Message>, k: nat)
    requires (forall c <- calls :: c.ToolCall?) && NoDuplicates(CallIDs(calls))
    requires AnswersPrefix(calls, results) && k <= |results|
    ensures Orderly(Elements(CallIDs(calls)[k..]), results[k..])
    decreases |results| - k
  {
    if k < |results| {
      var ids := CallIDs(calls);
      ResultsKeepOrder(calls, results, k + 1);
      assert results[k..][1..] == results[k + 1..];
      assert ids[k..] == [ids[k]] + ids[k + 1..];
      assert ids[k] !in ids[k + 1..];
      assert Elements(ids[k..]) - {ids[k]} == Elements(ids[k + 1..]);
    }
  }
}
