/** What a Codex request says: the conversion of a transcript to input items, the
    continuation state of a connection, and the short request that names a
    previous response instead of repeating it. */
module CodexDelta {
  import opened Messages
  import opened Transform
  import opened Transcript

  datatype InputPart = InputText(text: string) | InputImage(mimeType: string, data: string)

  /** A raw item is a stored reasoning object replayed verbatim; `kind` is its "type". */
  datatype Item =
    | UserInput(parts: seq<InputPart>)
    | OutputText(text: string)
    | FunctionCall(id: string, callID: string, name: string, arguments: string)
    | FunctionCallOutput(callID: string, output: string)
    | RawItem(kind: string, json: string)

  /** Decoding a stored signature; None when it is not a JSON object. */
  type Decoder = string -> Option<Item>

  // ---- conversion -----------------------------------------------------------------

  /** The id is cut at its first bar. */
  function SplitToolCallID(id: string): (parts: (string, string))
    ensures '|' in id ==> id == parts.0 + "|" + parts.1 && '|' !in parts.0
    ensures '|' !in id ==> parts == (id, "")
  {
    if id == "" then ("", "")
    else if id[0] == '|' then ("", id[1..])
    else
      var rest := SplitToolCallID(id[1..]);
      assert id == [id[0]] + id[1..];
      ([id[0]] + rest.0, rest.1)
  }

  predicate HasPrefix(s: string, prefix: string) {
    prefix <= s
  }

  function InputParts(content: seq<Block>, model: Model): seq<InputPart> {
    if content == [] then []
    else (match content[0]
          case Text(text, _) => [InputText(text)]
          case Image(data, mimeType) => if model.supportsImages then [InputImage(mimeType, data)] else []
          case _ => [])
         + InputParts(content[1..], model)
  }

  function TextParts(content: seq<Block>): seq<string> {
    if content == [] then []
    else (match content[0]
          case Text(text, _) => [text]
          case Image(_, _) => ["(see attached image)"]
          case _ => [])
         + TextParts(content[1..])
  }

  function Join(parts: seq<string>): string {
    if parts == [] then "" else if |parts| == 1 then parts[0] else parts[0] + "\n" + Join(parts[1..])
  }

  /** Same provider and API, another model. */
  predicate DifferentModel(m: Message, model: Model) {
    m.model != model.id && m.provider == model.provider && m.api == model.api
  }

  function BlockItems(b: Block, m: Message, model: Model, decode: Decoder): seq<Item> {
    match b
    case Thinking(_, signature, _) =>
      if signature == "" then []
      else if decode(signature).Some? then [decode(signature).value] else []
    case Text(text, _) => [OutputText(text)]
    case ToolCall(id, name, arguments, _) =>
      var (callID, itemID) := SplitToolCallID(id);
      var keptID := if DifferentModel(m, model) && HasPrefix(itemID, "fc_") then "" else itemID;
      [FunctionCall(keptID, callID, name, arguments)]
    case _ => []
  }

  function ContentItems(content: seq<Block>, m: Message, model: Model, decode: Decoder): seq<Item> {
    if content == [] then []
    else BlockItems(content[0], m, model, decode) + ContentItems(content[1..], m, model, decode)
  }

  function MessageItems(m: Message, model: Model, decode: Decoder): seq<Item> {
    match m.role
    case User => [UserInput(InputParts(m.content, model))]
    case Assistant => ContentItems(m.content, m, model, decode)
    case ToolResult => [FunctionCallOutput(SplitToolCallID(m.toolCallID).0, Join(TextParts(m.content)))]
    case OtherRole(_) => []
  }

  function Items(ms: seq<Message>, model: Model, decode: Decoder): seq<Item> {
    if ms == [] then [] else MessageItems(ms[0], model, decode) + Items(ms[1..], model, decode)
  }

  method ConvertCodexMessages(messages: seq<Message>, model: Model, decode: Decoder) returns (input: seq<Item>)
    ensures input == Items(messages, model, decode)
  {
    input := [];
    for i := 0 to |messages|
      invariant input + Items(messages[i..], model, decode) == Items(messages, model, decode)
    {
      var m := messages[i];
      assert messages[i..][1..] == messages[i + 1..];
      ghost var before, rest := input, Items(messages[i + 1..], model, decode);
      assert before + (MessageItems(m, model, decode) + rest) == before + MessageItems(m, model, decode) + rest;
      match m.role {
        case User =>
          input := input + [UserInput(InputParts(m.content, model))];
        case Assistant =>
          var items := ConvertReply(m, model, decode);
          input := input + items;
        case ToolResult =>
          input := input + [FunctionCallOutput(SplitToolCallID(m.toolCallID).0, Join(TextParts(m.content)))];
        case OtherRole(_) =>
      }
      assert input == before + MessageItems(m, model, decode);
    }
  }

  /** The loop over the blocks of one reply. */
  method ConvertReply(m: Message, model: Model, decode: Decoder) returns (items: seq<Item>)
    requires m.role.Assistant?
    ensures items == ContentItems(m.content, m, model, decode)
  {
    items := [];
    var isDifferentModel := m.model != model.id && m.provider == model.provider && m.api == model.api;
    for j := 0 to |m.content|
      invariant items + ContentItems(m.content[j..], m, model, decode) == ContentItems(m.content, m, model, decode)
    {
      var b := m.content[j];
      assert m.content[j..][1..] == m.content[j + 1..];
      ghost var before, rest := items, ContentItems(m.content[j + 1..], m, model, decode);
      assert before + (BlockItems(b, m, model, decode) + rest) == before + BlockItems(b, m, model, decode) + rest;
      match b {
        case Thinking(_, signature, _) =>
          if signature != "" && decode(signature).Some? {
            items := items + [decode(signature).value];
          }
        case Text(text, _) =>
          items := items + [OutputText(text)];
        case ToolCall(id, name, arguments, _) =>
          var (callID, itemID) := SplitToolCallID(id);
          if isDifferentModel && HasPrefix(itemID, "fc_") {
            itemID := "";
          }
          items := items + [FunctionCall(itemID, callID, name, arguments)];
        case _ =>
      }
      assert items == before + BlockItems(b, m, model, decode);
    }
  }

  lemma {:induction false} ItemsConcat(a: seq<Message>, b: seq<Message>, model: Model, decode: Decoder)
    ensures Items(a + b, model, decode) == Items(a, model, decode) + Items(b, model, decode)
  {
    if a == [] {
      assert a + b == b;
    } else {
      assert (a + b)[0] == a[0] && (a + b)[1..] == a[1..] + b;
      ItemsConcat(a[1..], b, model, decode);
    }
  }

  predicate IsCallOutput(item: Item) {
    item.FunctionCallOutput? || (item.RawItem? && item.kind == "function_call_output")
  }

  function WithoutCallOutputs(items: seq<Item>): seq<Item> {
    if items == [] then []
    else (if IsCallOutput(items[0]) then [] else [items[0]]) + WithoutCallOutputs(items[1..])
  }

  /** The items the next history will contain for the finished reply. */
  function ContinuationItems(model: Model, reply: Message, normalize: Option<Normalizer>, decode: Decoder,
                             now: int): seq<Item>
  {
    WithoutCallOutputs(Items(Transformed([reply], model, normalize, now), model, decode))
  }

  // ---- requests and continuations ----------------------------------------------------

  /** A request body: everything but the input enters the key; a missing input is
      not an empty one. */
  datatype Request = Request(bodyKey: string, input: Option<seq<Item>>, previousResponseID: Option<string>)

  datatype Continuation = Continuation(lastBody: string, lastInput: seq<Item>, lastResponseItems: seq<Item>,
                                       lastResponseID: string)

  function InputItems(r: Request): seq<Item> {
    if r.input.Some? then r.input.value else []
  }

  function Baseline(c: Continuation): seq<Item> {
    c.lastInput + c.lastResponseItems
  }

  /** The request extends what the continuation stands for. */
  predicate Extends(payload: Request, c: Continuation) {
    && c.lastResponseID != "" && payload.bodyKey == c.lastBody
    && payload.input.Some? && Baseline(c) <= payload.input.value
  }

  function CachedRequest(payload: Request, continuation: Option<Continuation>): Request {
    if continuation.Some? && Extends(payload, continuation.value)
    then payload.(previousResponseID := Some(continuation.value.lastResponseID),
                  input := Some(payload.input.value[|Baseline(continuation.value)|..]))
    else payload
  }

  /** The continuation that survives the building of a request. */
  function SurvivingContinuation(payload: Request, continuation: Option<Continuation>): Option<Continuation> {
    if continuation.Some? && Extends(payload, continuation.value) then continuation else None
  }

  /** What a server that has stored conversations by response id takes a request to
      say; None when it does not know the response. */
  function EffectiveInput(stored: map<string, seq<Item>>, r: Request): Option<seq<Item>> {
    if r.previousResponseID.None? then Some(InputItems(r))
    else if r.previousResponseID.value in stored then Some(stored[r.previousResponseID.value] + InputItems(r))
    else None
  }

  /** The server holds what the continuation says it holds. */
  predicate Backed(c: Option<Continuation>, stored: map<string, seq<Item>>) {
    c.Some? && c.value.lastResponseID != "" ==>
      c.value.lastResponseID in stored && stored[c.value.lastResponseID] == Baseline(c.value)
  }

  /** The short request says exactly what the full one says. */
  lemma CachedRequestRefinesFull(payload: Request, c: Option<Continuation>, stored: map<string, seq<Item>>)
    requires Backed(c, stored) && payload.previousResponseID.None?
    ensures EffectiveInput(stored, CachedRequest(payload, c)) == Some(InputItems(payload))
  {
    if c.Some? && Extends(payload, c.value) {
      var n := |Baseline(c.value)|;
      assert payload.input.value == Baseline(c.value) + payload.input.value[n..];
    }
  }

  // ---- completeness: a conversation that only grows takes the short form --------------

  /** No stored reasoning item of the reply passes for a call output. */
  predicate SafeReasoning(content: seq<Block>, decode: Decoder) {
    forall b <- content :: SafeBlock(b, decode)
  }

  predicate SafeBlock(b: Block, decode: Decoder) {
    b.Thinking? && b.signature != "" && decode(b.signature).Some? ==> !IsCallOutput(decode(b.signature).value)
  }

  lemma {:induction false} FilterShortens(items: seq<Item>)
    ensures |WithoutCallOutputs(items)| <= |items|
  {
    if items != [] { FilterShortens(items[1..]); }
  }

  /** Filtering a reply's items changes nothing exactly when its reasoning is safe, and
      otherwise leaves fewer. */
  lemma {:induction false} FilterKeepsReplyExactlyWhen(content: seq<Block>, m: Message, model: Model, decode: Decoder)
    ensures WithoutCallOutputs(ContentItems(content, m, model, decode)) == ContentItems(content, m, model, decode)
        <==> SafeReasoning(content, decode)
    ensures |WithoutCallOutputs(ContentItems(content, m, model, decode))| == |ContentItems(content, m, model, decode)|
        <==> SafeReasoning(content, decode)
  {
    if content != [] {
      assert content == [content[0]] + content[1..];
      assert SafeReasoning(content, decode) <==> SafeBlock(content[0], decode) && SafeReasoning(content[1..], decode);
      FilterKeepsReplyExactlyWhen(content[1..], m, model, decode);
      var head := BlockItems(content[0], m, model, decode);
      var tail := ContentItems(content[1..], m, model, decode);
      FilterShortens(tail);
      if head == [] {
        assert head + tail == tail;
      } else {
        assert (head + tail)[0] == head[0] && (head + tail)[1..] == tail;
      }
    }
  }

  lemma {:induction false} OnlyCallOutputs(pending: seq<Block>, answered: set<string>, now: int, model: Model,
                                           decode: Decoder)
    requires forall c <- pending :: c.ToolCall?
    ensures WithoutCallOutputs(Items(Flush(pending, answered, now), model, decode)) == []
  {
    if pending != [] {
      OnlyCallOutputs(pending[1..], answered, now, model, decode);
      var rest := Flush(pending[1..], answered, now);
      if pending[0].id in answered {
        assert Flush(pending, answered, now) == rest;
      } else {
        var m := SyntheticResult(pending[0], now);
        StartsWith(m, rest);
        assert Flush(pending, answered, now) == [m] + rest;
      }
    }
  }

  lemma {:induction false} FilterConcat(a: seq<Item>, b: seq<Item>)
    ensures WithoutCallOutputs(a + b) == WithoutCallOutputs(a) + WithoutCallOutputs(b)
  {
    if a == [] {
      assert a + b == b;
    } else {
      assert (a + b)[0] == a[0] && (a + b)[1..] == a[1..] + b;
      FilterConcat(a[1..], b);
    }
  }

  /** Followed by a kept reply, a transcript is repaired as if it ended there. */
  lemma {:induction false} RepairBeforeReply(ms: seq<Message>, reply: Message, rest: seq<Message>,
                                             pending: seq<Block>, answered: set<string>, now: int)
    requires (forall c <- pending :: c.ToolCall?) && reply.role.Assistant? && !Failed(reply)
    ensures Repair(ms + [reply] + rest, pending, answered, now)
         == Repair(ms, pending, answered, now) + ([reply] + Repair(rest, ToolCalls(reply.content), {}, now))
    decreases |ms|
  {
    var tail := [reply] + Repair(rest, ToolCalls(reply.content), {}, now);
    if ms == [] {
      assert ms + [reply] + rest == [reply] + rest;
      StartsWith(reply, rest);
      Associate(Flush(pending, answered, now), reply, Repair(rest, ToolCalls(reply.content), {}, now));
    } else {
      var m, all := ms[0], ms + [reply] + rest;
      assert all[0] == m && all[1..] == ms[1..] + [reply] + rest;
      var flush := Flush(pending, answered, now);
      match m.role
      case ToolResult =>
        RepairBeforeReply(ms[1..], reply, rest, pending, answered + {m.toolCallID}, now);
        Regroup([], m, Repair(ms[1..], pending, answered + {m.toolCallID}, now), tail);
      case OtherRole(_) =>
        RepairBeforeReply(ms[1..], reply, rest, pending, answered, now);
        Regroup([], m, Repair(ms[1..], pending, answered, now), tail);
      case User =>
        RepairBeforeReply(ms[1..], reply, rest, [], {}, now);
        Regroup(flush, m, Repair(ms[1..], [], {}, now), tail);
      case Assistant =>
        var next := if Failed(m) then [] else ToolCalls(m.content);
        RepairBeforeReply(ms[1..], reply, rest, next, {}, now);
        Regroup(flush, m, Repair(ms[1..], next, {}, now), tail);
    }
  }

  lemma Regroup(flush: seq<Message>, m: Message, x: seq<Message>, tail: seq<Message>)
    ensures [m] + (x + tail) == [m] + x + tail
    ensures flush + [m] + (x + tail) == flush + [m] + x + tail
    ensures flush + (x + tail) == flush + x + tail
  {
  }

  function RenamesPast(ms: seq<Message>, model: Model, normalize: Option<Normalizer>,
                       ids: map<string, string>): map<string, string>
  {
    if ms == [] then ids else RenamesPast(ms[1..], model, normalize, RenamesAfter(ms[0], model, normalize, ids))
  }

  lemma {:induction false} RewriteConcat(a: seq<Message>, b: seq<Message>, model: Model, normalize: Option<Normalizer>,
                                         ids: map<string, string>)
    ensures Rewrite(a + b, model, normalize, ids)
         == Rewrite(a, model, normalize, ids) + Rewrite(b, model, normalize, RenamesPast(a, model, normalize, ids))
  {
    if a == [] {
      assert a + b == b;
    } else {
      assert (a + b)[0] == a[0] && (a + b)[1..] == a[1..] + b;
      RewriteConcat(a[1..], b, model, normalize, RenamesAfter(a[0], model, normalize, ids));
    }
  }

  // ---- the clock never shows in the items --------------------------------------------------

  function Clockless(ms: seq<Message>): (out: seq<Message>)
    ensures |out| == |ms| && forall k | 0 <= k < |ms| :: out[k] == ms[k].(timestamp := 0)
  {
    seq(|ms|, k requires 0 <= k < |ms| => ms[k].(timestamp := 0))
  }

  lemma ClocklessConcat(a: seq<Message>, b: seq<Message>)
    ensures Clockless(a + b) == Clockless(a) + Clockless(b)
  {
  }

  lemma {:induction false} ContentIgnoresClock(content: seq<Block>, m: Message, n: Message, model: Model,
                                               decode: Decoder)
    requires m.(timestamp := 0) == n.(timestamp := 0)
    ensures ContentItems(content, m, model, decode) == ContentItems(content, n, model, decode)
  {
    if content != [] { ContentIgnoresClock(content[1..], m, n, model, decode); }
  }

  /** Messages that differ in their timestamps only have the same items. */
  lemma {:induction false} ItemsIgnoreClocks(a: seq<Message>, b: seq<Message>, model: Model, decode: Decoder)
    requires Clockless(a) == Clockless(b)
    ensures Items(a, model, decode) == Items(b, model, decode)
  {
    assert |a| == |Clockless(a)| && |b| == |Clockless(b)|;
    if a != [] {
      assert Clockless(a)[0] == Clockless(b)[0];
      ContentIgnoresClock(a[0].content, a[0], b[0], model, decode);
      assert Clockless(a[1..]) == Clockless(a)[1..] && Clockless(b[1..]) == Clockless(b)[1..];
      ItemsIgnoreClocks(a[1..], b[1..], model, decode);
    }
  }

  lemma {:induction false} FlushIgnoresClock(pending: seq<Block>, answered: set<string>, now: int, later: int)
    requires forall c <- pending :: c.ToolCall?
    ensures Clockless(Flush(pending, answered, now)) == Clockless(Flush(pending, answered, later))
  {
    if pending != [] {
      FlushIgnoresClock(pending[1..], answered, now, later);
      if pending[0].id !in answered {
        ClocklessConcat([SyntheticResult(pending[0], now)], Flush(pending[1..], answered, now));
        ClocklessConcat([SyntheticResult(pending[0], later)], Flush(pending[1..], answered, later));
        assert Clockless([SyntheticResult(pending[0], now)]) == Clockless([SyntheticResult(pending[0], later)]);
      } else {
        assert Flush(pending, answered, now) == Flush(pending[1..], answered, now);
        assert Flush(pending, answered, later) == Flush(pending[1..], answered, later);
      }
    }
  }

  lemma ClocklessThree(a: seq<Message>, m: Message, b: seq<Message>)
    ensures Clockless(a + [m] + b) == Clockless(a) + [m.(timestamp := 0)] + Clockless(b)
    ensures Clockless([m] + b) == [m.(timestamp := 0)] + Clockless(b)
    ensures Clockless(a + b) == Clockless(a) + Clockless(b)
  {
  }

  /** Repaired at two times, a transcript differs in the timestamps of synthetic results only. */
  lemma {:induction false} RepairIgnoresClock(ms: seq<Message>, pending: seq<Block>, answered: set<string>,
                                              now: int, later: int)
    requires forall c <- pending :: c.ToolCall?
    ensures Clockless(Repair(ms, pending, answered, now)) == Clockless(Repair(ms, pending, answered, later))
    decreases |ms|
  {
    hide Clockless;
    FlushIgnoresClock(pending, answered, now, later);
    if ms != [] {
      var m, rest := ms[0], ms[1..];
      var next, done := AfterRepairOf(m, pending, answered);
      RepairIgnoresClock(rest, next, done, now, later);
      ClocklessThree(Flush(pending, answered, now), m, Repair(rest, next, done, now));
      ClocklessThree(Flush(pending, answered, later), m, Repair(rest, next, done, later));
    }
  }

  /** What a message leaves pending and answered. */
  lemma AfterRepairOf(m: Message, pending: seq<Block>, answered: set<string>)
    returns (next: seq<Block>, done: set<string>)
    requires forall c <- pending :: c.ToolCall?
    ensures forall c <- next :: c.ToolCall?
    ensures next == (if m.role.Assistant? && !Failed(m) then ToolCalls(m.content)
                     else if m.role.User? || m.role.Assistant? then [] else pending)
    ensures done == (if m.role.User? || m.role.Assistant? then {}
                     else if m.role.ToolResult? then answered + {m.toolCallID} else answered)
  {
    next := if m.role.Assistant? && !Failed(m) then ToolCalls(m.content)
            else if m.role.User? || m.role.Assistant? then [] else pending;
    done := if m.role.User? || m.role.Assistant? then {}
            else if m.role.ToolResult? then answered + {m.toolCallID} else answered;
  }

  /** So what a request says does not depend on when it is built. */
  lemma RequestIgnoresClock(ms: seq<Message>, model: Model, normalize: Option<Normalizer>, decode: Decoder,
                            now: int, later: int)
    ensures Items(Transformed(ms, model, normalize, now), model, decode)
         == Items(Transformed(ms, model, normalize, later), model, decode)
  {
    RepairIgnoresClock(Rewrite(ms, model, normalize, map[]), [], {}, now, later);
    ItemsIgnoreClocks(Transformed(ms, model, normalize, now), Transformed(ms, model, normalize, later), model, decode);
  }

  /** What follows the reply in the rewritten conversation. */
  function Following(ms: seq<Message>, reply: Message, rest: seq<Message>, model: Model, normalize: Option<Normalizer>,
                     now: int): seq<Message>
  {
    var sent := RewriteMessage(reply, model, normalize, map[]);
    Repair(Rewrite(rest, model, normalize, RenamesPast(ms + [reply], model, normalize, map[])),
           ToolCalls(sent.content), {}, now)
  }

  /** The rewrite is stable: but for the timestamps of synthetic results, the conversation
      rewritten earlier, the reply, and then the rest. */
  lemma TransformedGrows(ms: seq<Message>, reply: Message, rest: seq<Message>, model: Model,
                         normalize: Option<Normalizer>, now: int, later: int)
    requires reply.role.Assistant? && !Failed(reply) && SameModel(reply, model)
    ensures Clockless(Transformed(ms + [reply] + rest, model, normalize, later))
         == Clockless(Transformed(ms, model, normalize, now)
                      + ([RewriteMessage(reply, model, normalize, map[])]
                         + Following(ms, reply, rest, model, normalize, later)))
  {
    var before := Rewrite(ms, model, normalize, map[]);
    var ids := RenamesPast(ms, model, normalize, map[]);
    var after := Rewrite(rest, model, normalize, RenamesPast(ms + [reply], model, normalize, map[]));
    var sent := RewriteMessage(reply, model, normalize, map[]);
    RewriteConcat(ms + [reply], rest, model, normalize, map[]);
    RewriteConcat(ms, [reply], model, normalize, map[]);
    assert Rewrite([reply], model, normalize, ids) == [sent];
    RepairBeforeReply(before, sent, after, [], {}, later);
    var tail := [sent] + Following(ms, reply, rest, model, normalize, later);
    RepairIgnoresClock(before, [], {}, now, later);
    ClocklessConcat(Repair(before, [], {}, later), tail);
    ClocklessConcat(Repair(before, [], {}, now), tail);
  }

  /** The items recorded for a reply are those the next conversation has for it exactly when
      its reasoning is safe; otherwise they are fewer. */
  lemma ContinuationItemsAreTheReply(reply: Message, model: Model, normalize: Option<Normalizer>, decode: Decoder,
                                     now: int)
    requires reply.role.Assistant? && !Failed(reply) && SameModel(reply, model)
    ensures
      var recorded := ContinuationItems(model, reply, normalize, decode, now);
      var items := MessageItems(RewriteMessage(reply, model, normalize, map[]), model, decode);
      && (recorded == items <==> SafeReasoning(reply.content, decode))
      && (|recorded| == |items| <==> SafeReasoning(reply.content, decode))
  {
    var sent := RewriteMessage(reply, model, normalize, map[]);
    var calls := ToolCalls(sent.content);
    var flush := Flush(calls, {}, now);
    RewriteKeepsSafety(reply.content, reply, model, normalize, decode);
    assert Rewrite([reply], model, normalize, map[]) == [sent];
    assert [sent][1..] == [];
    assert Repair([sent], [], {}, now) == [sent] + flush;
    ItemsConcat([sent], flush, model, decode);
    assert Items([sent], model, decode) == MessageItems(sent, model, decode) + Items([], model, decode);
    FilterConcat(MessageItems(sent, model, decode), Items(flush, model, decode));
    FilterKeepsReplyExactlyWhen(sent.content, sent, model, decode);
    OnlyCallOutputs(calls, {}, now, model, decode);
  }

  /** For its own model a reply keeps every reasoning block that has a signature. */
  lemma {:induction false} RewriteKeepsSafety(content: seq<Block>, m: Message, model: Model,
                                              normalize: Option<Normalizer>, decode: Decoder)
    requires SameModel(m, model)
    ensures SafeReasoning(RewriteContent(content, m, model, normalize), decode) <==> SafeReasoning(content, decode)
  {
    if content != [] {
      RewriteKeepsSafety(content[1..], m, model, normalize, decode);
      var head := RewriteBlock(content[0], m, model, normalize);
      var tail := RewriteContent(content[1..], m, model, normalize);
      assert content == [content[0]] + content[1..];
      assert SafeReasoning(content, decode) <==> SafeBlock(content[0], decode) && SafeReasoning(content[1..], decode);
      assert head == [content[0]] || (head == [] && SafeBlock(content[0], decode));
      assert head == [] ==> head + tail == tail;
    }
  }

  function FullRequest(bodyKey: string, ms: seq<Message>, model: Model, normalize: Option<Normalizer>, decode: Decoder,
                       now: int): Request
  {
    Request(bodyKey, Some(Items(Transformed(ms, model, normalize, now), model, decode)), None)
  }

  /** The items of the next request: those of the earlier one, the reply's, and the rest's. */
  lemma NextItems(ms: seq<Message>, reply: Message, rest: seq<Message>, model: Model, normalize: Option<Normalizer>,
                  decode: Decoder, now: int, later: int)
    requires reply.role.Assistant? && !Failed(reply) && SameModel(reply, model)
    ensures Items(Transformed(ms + [reply] + rest, model, normalize, later), model, decode)
         == Items(Transformed(ms, model, normalize, now), model, decode)
            + MessageItems(RewriteMessage(reply, model, normalize, map[]), model, decode)
            + Items(Following(ms, reply, rest, model, normalize, later), model, decode)
  {
    hide Clockless;
    hide Repair;
    hide Transformed;
    hide Following;
    hide RewriteMessage;
    var before := Transformed(ms, model, normalize, now);
    var sent := RewriteMessage(reply, model, normalize, map[]);
    var following := Following(ms, reply, rest, model, normalize, later);
    TransformedGrows(ms, reply, rest, model, normalize, now, later);
    ItemsIgnoreClocks(Transformed(ms + [reply] + rest, model, normalize, later), before + ([sent] + following), model,
                      decode);
    ItemsConcat(before, [sent] + following, model, decode);
    StartsWith(sent, following);
  }

  /** When the next input is the first one, some items and a rest, a continuation that recorded
      the items or fewer of them sends exactly the rest when it recorded them all. */
  lemma SendsRestExactlyWhen(next: Request, c: Continuation, items: seq<Item>, rest: seq<Item>)
    requires next.input == Some(c.lastInput + items + rest) && next.bodyKey == c.lastBody
    requires next.previousResponseID.None? && c.lastResponseID != ""
    requires c.lastResponseItems == items <==> |c.lastResponseItems| == |items|
    ensures CachedRequest(next, Some(c)) == Request(c.lastBody, Some(rest), Some(c.lastResponseID))
        <==> c.lastResponseItems == items
  {
    var all := c.lastInput + items + rest;
    if c.lastResponseItems == items {
      assert Baseline(c) <= all && all[|Baseline(c)|..] == rest;
    } else if Extends(next, c) {
      assert |all[|Baseline(c)|..]| == |all| - |Baseline(c)|;
    }
  }

  /** After a completed reply of the same model, the conversation extended by that reply and
      then anything takes the short form and sends exactly the conversion of what follows the
      reply, exactly when the reply's reasoning is safe.  The first request, the recording of
      the reply and the next request read the clock for themselves. */
  lemma GrowingConversationSendsOnlyTheRest(
      bodyKey: string, responseID: string, ms: seq<Message>, reply: Message, rest: seq<Message>,
      model: Model, normalize: Option<Normalizer>, decode: Decoder, asked: int, answered: int, later: int)
    requires responseID != ""
    requires reply.role.Assistant? && !Failed(reply) && SameModel(reply, model)
    ensures
      var c := Continuation(bodyKey, InputItems(FullRequest(bodyKey, ms, model, normalize, decode, asked)),
                            ContinuationItems(model, reply, normalize, decode, answered), responseID);
      var next := FullRequest(bodyKey, ms + [reply] + rest, model, normalize, decode, later);
      var sent := Items(Following(ms, reply, rest, model, normalize, later), model, decode);
      CachedRequest(next, Some(c)) == Request(bodyKey, Some(sent), Some(responseID))
      <==> SafeReasoning(reply.content, decode)
  {
    hide Transformed;
    hide Following;
    hide RewriteMessage;
    hide ContinuationItems;
    hide MessageItems;
    hide Items;
    hide SafeReasoning;
    hide CachedRequest;
    var c := Continuation(bodyKey, InputItems(FullRequest(bodyKey, ms, model, normalize, decode, asked)),
                          ContinuationItems(model, reply, normalize, decode, answered), responseID);
    NextItems(ms, reply, rest, model, normalize, decode, asked, later);
    ContinuationItemsAreTheReply(reply, model, normalize, decode, answered);
    SendsRestExactlyWhen(FullRequest(bodyKey, ms + [reply] + rest, model, normalize, decode, later), c,
                         MessageItems(RewriteMessage(reply, model, normalize, map[]), model, decode),
                         Items(Following(ms, reply, rest, model, normalize, later), model, decode));
  }
}
