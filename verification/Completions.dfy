/** The accumulator of a chat-completions stream: chunks with interleaved text, reasoning
    and tool-call deltas become indexed blocks of one reply.  The step functions say what
    each delta does to the accumulator; the class carries them out on its fields, while
    its consumer may stop listening after any event. */
module Completions {
  import opened Messages

  // ---- what arrives ---------------------------------------------------------------------

  datatype CallDelta = CallDelta(hasIndex: bool, index: int, id: string, name: string, args: string)

  /** One thing a chunk contributes to the reply. */
  datatype Fragment =
    | TextPart(text: string)
    | ReasoningPart(text: string, field: string)
    | CallPart(call: CallDelta)
    | Detail(id: string, raw: string)

  datatype Chunk =
    | Chunk(text: string, reasoning: string, field: string, calls: seq<CallDelta>, details: seq<(string, string)>,
            finish: Option<string>)
    | ErrorChunk(message: string)

  /** A chunk, with whether the run was cancelled when it arrived, or a broken transport. */
  datatype Input = Arrives(cancelled: bool, chunk: Chunk) | Breaks

  /** How the serialised arguments decode, and whose stream it is. */
  datatype Env = Env(provider: string, decode: string -> string)

  function CallParts(calls: seq<CallDelta>): (parts: seq<Fragment>)
    ensures |parts| == |calls| && forall k | 0 <= k < |calls| :: parts[k] == CallPart(calls[k])
  {
    seq(|calls|, k requires 0 <= k < |calls| => CallPart(calls[k]))
  }

  function Details(details: seq<(string, string)>): (parts: seq<Fragment>)
    ensures |parts| == |details| && forall k | 0 <= k < |details| :: parts[k] == Detail(details[k].0, details[k].1)
  {
    seq(|details|, k requires 0 <= k < |details| => Detail(details[k].0, details[k].1))
  }

  function TextParts(text: string, reasoning: string, field: string): seq<Fragment> {
    (if text == "" then [] else [TextPart(text)]) + (if reasoning == "" then [] else [ReasoningPart(reasoning, field)])
  }

  function Fragments(c: Chunk): seq<Fragment>
    requires c.Chunk?
  {
    TextParts(c.text, c.reasoning, c.field) + CallParts(c.calls) + Details(c.details)
  }

  /** An input after which nothing more is read. */
  predicate Stops(i: Input) {
    i.Breaks? || i.cancelled || i.chunk.ErrorChunk?
  }

  /** The transport holds, nobody cancels and the provider reports no error. */
  predicate Clean(inputs: seq<Input>) {
    forall i | 0 <= i < |inputs| :: !Stops(inputs[i])
  }

  /** The fragments of a stream that neither fails nor is cancelled. */
  function AllFragments(inputs: seq<Input>): seq<Fragment>
    requires Clean(inputs)
  {
    if inputs == [] then [] else Fragments(inputs[0].chunk) + AllFragments(inputs[1..])
  }

  // ---- what is emitted --------------------------------------------------------------------

  datatype BlockKind = TextBlock | ThinkingBlock | CallBlock

  datatype Emitted =
    | Opened
    | BlockStart(kind: BlockKind, index: nat)
    | BlockText(kind: BlockKind, index: nat, text: string)
    | BlockEnd(kind: BlockKind, index: nat)
    | Done
    | Errored
    | Complete
    | Broke

  function KindOf(b: Block): BlockKind {
    match b
    case Thinking(_, _, _) => ThinkingBlock
    case ToolCall(_, _, _, _) => CallBlock
    case _ => TextBlock
  }

  // ---- the accumulator ------------------------------------------------------------------------

  /** A pointer to a block is the block's index, which never changes. `partials` holds the
      argument text of each block so far. */
  datatype State = State(
    content: seq<Block>,
    partials: seq<string>,
    text: Option<nat>,
    thinking: Option<nat>,
    byIndex: map<int, nat>,
    byID: map<string, nat>,
    hasFinishReason: bool,
    stopReason: StopReason,
    errorMessage: string,
    events: seq<Emitted>)

  const EMPTY := State([], [], None, None, map[], map[], false, Unset, "", [Opened])

  predicate IsCall(content: seq<Block>, p: nat) {
    p < |content| && content[p].ToolCall?
  }

  predicate WellFormed(s: State) {
    && |s.partials| == |s.content|
    && (s.text.Some? ==> s.text.value < |s.content| && s.content[s.text.value].Text?)
    && (s.thinking.Some? ==> s.thinking.value < |s.content| && s.content[s.thinking.value].Thinking?)
    && (forall i: int | i in s.byIndex :: IsCall(s.content, s.byIndex[i]))
    && (forall id: string | id in s.byID :: IsCall(s.content, s.byID[id]))
  }

  function StartBlock(s: State, b: Block): State {
    s.(content := s.content + [b], partials := s.partials + [""],
       events := s.events + [BlockStart(KindOf(b), |s.content|)])
  }

  function EnsureText(s: State): (t: State)
    requires WellFormed(s)
    ensures WellFormed(t) && t.text.Some?
  {
    if s.text.Some? then s else StartBlock(s, Text("", "")).(text := Some(|s.content|))
  }

  function TextStep(s: State, delta: string): (t: State)
    requires WellFormed(s)
    ensures WellFormed(t)
  {
    var e := EnsureText(s);
    var p := e.text.value;
    e.(content := e.content[p := e.content[p].(text := e.content[p].text + delta)],
       events := e.events + [BlockText(TextBlock, p, delta)])
  }

  function Signature(field: string, env: Env): string {
    if env.provider == "opencode-go" && field == "reasoning" then "reasoning_content" else field
  }

  function EnsureThinking(s: State, field: string, env: Env): (t: State)
    requires WellFormed(s)
    ensures WellFormed(t) && t.thinking.Some?
  {
    if s.thinking.Some? then s
    else StartBlock(s, Thinking("", Signature(field, env), false)).(thinking := Some(|s.content|))
  }

  function ReasoningStep(s: State, delta: string, field: string, env: Env): (t: State)
    requires WellFormed(s)
    ensures WellFormed(t)
  {
    var e := EnsureThinking(s, field, env);
    var p := e.thinking.value;
    e.(content := e.content[p := e.content[p].(thinking := e.content[p].thinking + delta)],
       events := e.events + [BlockText(ThinkingBlock, p, delta)])
  }

  /** The block a tool-call delta belongs to: by its index first, then by its id. */
  function Lookup(s: State, d: CallDelta): (p: Option<nat>)
    requires WellFormed(s)
    ensures p.Some? ==> IsCall(s.content, p.value)
  {
    if d.hasIndex && d.index in s.byIndex then Some(s.byIndex[d.index])
    else if d.id != "" && d.id in s.byID then Some(s.byID[d.id])
    else None
  }

  function Register(s: State, d: CallDelta, p: nat): (t: State)
    requires WellFormed(s) && IsCall(s.content, p)
    ensures WellFormed(t)
  {
    s.(byIndex := if d.hasIndex then s.byIndex[d.index := p] else s.byIndex,
       byID := if d.id != "" then s.byID[d.id := p] else s.byID)
  }

  function StartCall(s: State, d: CallDelta): (t: State)
    requires WellFormed(s)
    ensures WellFormed(t)
  {
    Register(StartBlock(s, ToolCall(d.id, d.name, "{}", "")), d, |s.content|)
  }

  /** The first id and the first name a block is given are its own. */
  function Identify(s: State, p: nat, d: CallDelta): (t: State)
    requires WellFormed(s) && IsCall(s.content, p)
    ensures WellFormed(t) && |t.content| == |s.content| && t.content[p].ToolCall?
  {
    var b := s.content[p];
    s.(content := s.content[p := b.(id := if b.id == "" then d.id else b.id,
                                    name := if b.name == "" then d.name else b.name)],
       byID := if b.id == "" && d.id != "" then s.byID[d.id := p] else s.byID)
  }

  function Decoded(text: string, env: Env): string {
    if text == "" then "{}" else env.decode(text)
  }

  function ExtendCall(s: State, p: nat, args: string, env: Env): (t: State)
    requires WellFormed(s) && IsCall(s.content, p)
    ensures WellFormed(t)
  {
    var grown := s.partials[p] + args;
    var t := if args == "" then s
             else s.(partials := s.partials[p := grown],
                     content := s.content[p := s.content[p].(arguments := Decoded(grown, env))]);
    t.(events := t.events + [BlockText(CallBlock, p, t.content[p].arguments)])
  }

  function CallStep(s: State, d: CallDelta, env: Env): (t: State)
    requires WellFormed(s)
    ensures WellFormed(t)
  {
    var found := Lookup(s, d);
    var p := if found.Some? then found.value else |s.content|;
    ExtendCall(Identify(if found.Some? then s else StartCall(s, d), p, d), p, d.args, env)
  }

  function Signed(b: Block, id: string, raw: string): Block {
    if b.ToolCall? && b.id == id then b.(thoughtSignature := raw) else b
  }

  function DetailStep(s: State, id: string, raw: string): (t: State)
    requires WellFormed(s)
    ensures WellFormed(t)
  {
    s.(content := seq(|s.content|, k requires 0 <= k < |s.content| => Signed(s.content[k], id, raw)))
  }

  function Step(s: State, f: Fragment, env: Env): (t: State)
    requires WellFormed(s)
    ensures WellFormed(t) && s.events <= t.events
  {
    match f
    case TextPart(text) => TextStep(s, text)
    case ReasoningPart(text, field) => ReasoningStep(s, text, field, env)
    case CallPart(d) => CallStep(s, d, env)
    case Detail(id, raw) => DetailStep(s, id, raw)
  }

  function StepAll(s: State, fs: seq<Fragment>, env: Env): (t: State)
    requires WellFormed(s)
    ensures WellFormed(t) && s.events <= t.events
    decreases |fs|
  {
    if fs == [] then s else Step(StepAll(s, fs[..|fs| - 1], env), fs[|fs| - 1], env)
  }

  function MapStopReason(reason: string): (StopReason, string) {
    if reason == "stop" || reason == "end" then (Stop, "")
    else if reason == "length" then (Length, "")
    else if reason == "function_call" || reason == "tool_calls" then (ToolUse, "")
    else (Error, "Provider finish_reason: " + reason)
  }

  function Metadata(s: State, finish: Option<string>): State {
    if finish.None? then s
    else
      var (stop, message) := MapStopReason(finish.value);
      s.(hasFinishReason := true, stopReason := stop, errorMessage := if message == "" then s.errorMessage else message)
  }

  function ApplyChunk(s: State, c: Chunk, env: Env): (t: State)
    requires WellFormed(s) && c.Chunk?
    ensures WellFormed(t) && s.events <= t.events
  {
    StepAll(Metadata(s, c.finish), Fragments(c), env)
  }

  /** The end events from the block at `i` on. */
  function Ends(content: seq<Block>, i: nat): seq<Emitted>
    requires i <= |content|
    decreases |content| - i
  {
    if i == |content| then [] else [BlockEnd(KindOf(content[i]), i)] + Ends(content, i + 1)
  }

  predicate HasCall(content: seq<Block>) {
    exists k :: 0 <= k < |content| && content[k].ToolCall?
  }

  function FinalReason(s: State): StopReason {
    if !s.hasFinishReason then Error
    else
      var reason := if s.stopReason.Unset? then Stop else s.stopReason;
      if reason.Stop? && HasCall(s.content) then ToolUse else reason
  }

  function Finished(s: State): State {
    var reason := FinalReason(s);
    s.(stopReason := reason,
       errorMessage := if s.hasFinishReason then s.errorMessage else "Stream ended without finish_reason",
       events := s.events + Ends(s.content, 0) + [if reason.Error? || reason.Aborted? then Errored else Done, Complete])
  }

  function Fail(s: State, reason: StopReason, message: string): State {
    s.(stopReason := reason, errorMessage := message, events := s.events + [Errored, Complete])
  }

  function ErrorText(message: string): string {
    if message == "" then "OpenAI Completions stream error" else message
  }

  /** The whole stream for a consumer that listens to the end. */
  function Stream(s: State, inputs: seq<Input>, env: Env, reason: string): (t: State)
    requires WellFormed(s)
    ensures s.events <= t.events
    decreases |inputs|
  {
    if inputs == [] then Finished(s)
    else
      match inputs[0]
      case Breaks => s.(events := s.events + [Broke])
      case Arrives(cancelled, chunk) =>
        if cancelled then Fail(s, Aborted, reason)
        else if chunk.ErrorChunk? then Fail(s, Error, ErrorText(chunk.message))
        else Stream(ApplyChunk(s, chunk, env), inputs[1..], env, reason)
  }

  lemma StreamUnfolds(s: State, inputs: seq<Input>, i: nat, env: Env, reason: string)
    requires WellFormed(s) && i < |inputs|
    ensures Stream(s, inputs[i..], env, reason) ==
            if inputs[i].Breaks? then s.(events := s.events + [Broke])
            else if inputs[i].cancelled then Fail(s, Aborted, reason)
            else if inputs[i].chunk.ErrorChunk? then Fail(s, Error, ErrorText(inputs[i].chunk.message))
            else Stream(ApplyChunk(s, inputs[i].chunk, env), inputs[i + 1..], env, reason)
  {
    assert inputs[i..][1..] == inputs[i + 1..];
  }

  lemma {:induction false} StepAllConcat(s: State, a: seq<Fragment>, b: seq<Fragment>, env: Env)
    requires WellFormed(s)
    ensures StepAll(s, a + b, env) == StepAll(StepAll(s, a, env), b, env)
    decreases |b|
  {
    if b == [] {
      assert a + b == a;
    } else {
      assert (a + b)[..|a + b| - 1] == a + b[..|b| - 1];
      StepAllConcat(s, a, b[..|b| - 1], env);
    }
  }

  lemma StepAllNext(s: State, fs: seq<Fragment>, i: nat, env: Env)
    requires WellFormed(s) && i < |fs|
    ensures StepAll(s, fs[..i + 1], env) == Step(StepAll(s, fs[..i], env), fs[i], env)
    ensures StepAll(s, fs[..i + 1], env).events <= StepAll(s, fs, env).events
  {
    assert fs[..i + 1][..i] == fs[..i];
    assert fs == fs[..i + 1] + fs[i + 1..];
    StepAllConcat(s, fs[..i + 1], fs[i + 1..], env);
  }

  /** Every call's arguments are already what its fragments decode to. */
  predicate ArgumentsDecoded(s: State, env: Env)
    requires WellFormed(s)
  {
    forall k | 0 <= k < |s.content| && s.content[k].ToolCall? :: s.content[k].arguments == Decoded(s.partials[k], env)
  }

  lemma StartAndIdentifyKeepDecoded(s: State, d: CallDelta, p: nat, env: Env)
    requires WellFormed(s) && ArgumentsDecoded(s, env)
    ensures ArgumentsDecoded(StartCall(s, d), env)
    ensures IsCall(s.content, p) ==> ArgumentsDecoded(Identify(s, p, d), env)
  {
  }

  lemma ExtendKeepsDecoded(s: State, p: nat, args: string, env: Env)
    requires WellFormed(s) && IsCall(s.content, p) && ArgumentsDecoded(s, env)
    ensures ArgumentsDecoded(ExtendCall(s, p, args, env), env)
  {
  }

  lemma StepKeepsDecoded(s: State, f: Fragment, env: Env)
    requires WellFormed(s) && ArgumentsDecoded(s, env)
    ensures ArgumentsDecoded(Step(s, f, env), env)
  {
    if f.CallPart? {
      var d, found := f.call, Lookup(s, f.call);
      var p := if found.Some? then found.value else |s.content|;
      var t := if found.Some? then s else StartCall(s, d);
      StartAndIdentifyKeepDecoded(s, d, 0, env);
      StartAndIdentifyKeepDecoded(t, d, p, env);
      ExtendKeepsDecoded(Identify(t, p, d), p, d.args, env);
    }
  }

  lemma {:induction false} StepAllKeepsDecoded(s: State, fs: seq<Fragment>, env: Env)
    requires WellFormed(s) && ArgumentsDecoded(s, env)
    ensures ArgumentsDecoded(StepAll(s, fs, env), env)
    decreases |fs|
  {
    if fs != [] {
      StepAllKeepsDecoded(s, fs[..|fs| - 1], env);
      StepKeepsDecoded(StepAll(s, fs[..|fs| - 1], env), fs[|fs| - 1], env);
    }
  }

  lemma EndsGrow(content: seq<Block>, i: nat, sofar: seq<Emitted>)
    requires i < |content|
    ensures sofar + Ends(content, i) == sofar + [BlockEnd(KindOf(content[i]), i)] + Ends(content, i + 1)
  {
  }

  // ---- the accumulator as the program keeps it ------------------------------------------------

  class StreamState {
    var content: seq<Block>
    var partials: seq<string>
    var text: Option<nat>
    var thinking: Option<nat>
    var byIndex: map<int, nat>
    var byID: map<string, nat>
    var hasFinishReason: bool
    var stopReason: StopReason
    var errorMessage: string
    var events: seq<Emitted>
    const limit: nat
    const env: Env

    function Now(): State
      reads this
    {
      State(content, partials, text, thinking, byIndex, byID, hasFinishReason, stopReason, errorMessage, events)
    }

    predicate Ready()
      reads this
    {
      WellFormed(Now()) && |events| < limit
    }

    /** Either the step to `full` was made and the consumer still listens, or the consumer
        stopped, having seen the first events of the step. */
    predicate Delivers(goOn: bool, full: State)
      reads this
    {
      if goOn then Now() == full && |events| < limit else |events| == limit && events <= full.events
    }

    constructor (env: Env, limit: nat)
      ensures this.env == env && this.limit == limit
      ensures Now() == EMPTY.(events := [])
    {
      content, partials, text, thinking := [], [], None, None;
      byIndex, byID, hasFinishReason, stopReason, errorMessage, events := map[], map[], false, Unset, "", [];
      this.env, this.limit := env, limit;
    }

    /** The consumer listens to at most `limit` events. */
    method Yield(e: Emitted) returns (goOn: bool)
      modifies this`events
      ensures events == old(events) + [e] && goOn == (|events| < limit)
    {
      events := events + [e];
      return |events| < limit;
    }

    method BeginBlock(b: Block) returns (goOn: bool)
      requires Ready()
      modifies this
      ensures Delivers(goOn, StartBlock(old(Now()), b))
    {
      content, partials := content + [b], partials + [""];
      goOn := Yield(BlockStart(KindOf(b), |content| - 1));
    }

    method ApplyTextDelta(delta: string) returns (goOn: bool)
      requires Ready()
      modifies this
      ensures Delivers(goOn, TextStep(old(Now()), delta))
    {
      if text.None? {
        goOn := BeginBlock(Text("", ""));
        if !goOn { return; }
        text := Some(|content| - 1);
      }
      var p := text.value;
      content := content[p := content[p].(text := content[p].text + delta)];
      goOn := Yield(BlockText(TextBlock, p, delta));
    }

    method ApplyReasoningDelta(delta: string, field: string) returns (goOn: bool)
      requires Ready()
      modifies this
      ensures Delivers(goOn, ReasoningStep(old(Now()), delta, field, env))
    {
      if thinking.None? {
        var signature := field;
        if env.provider == "opencode-go" && signature == "reasoning" { signature := "reasoning_content"; }
        goOn := BeginBlock(Thinking("", signature, false));
        if !goOn { return; }
        thinking := Some(|content| - 1);
      }
      var p := thinking.value;
      content := content[p := content[p].(thinking := content[p].thinking + delta)];
      goOn := Yield(BlockText(ThinkingBlock, p, delta));
    }

    /** The block of a tool-call delta, started when there is none yet. */
    method EnsureCallBlock(d: CallDelta) returns (p: nat, goOn: bool)
      requires Ready()
      modifies this
      ensures var found := Lookup(old(Now()), d);
              Delivers(goOn, if found.Some? then old(Now()) else StartCall(old(Now()), d))
              && p == if found.Some? then found.value else |old(content)|
    {
      if d.hasIndex && d.index in byIndex { return byIndex[d.index], true; }
      if d.id != "" && d.id in byID { return byID[d.id], true; }
      p := |content|;
      goOn := BeginBlock(ToolCall(d.id, d.name, "{}", ""));
      if !goOn { return; }
      if d.hasIndex { byIndex := byIndex[d.index := p]; }
      if d.id != "" { byID := byID[d.id := p]; }
    }

    method ApplyIdentity(p: nat, d: CallDelta)
      requires Ready() && IsCall(content, p)
      modifies this
      ensures Now() == Identify(old(Now()), p, d)
    {
      var given := content[p].id == "" && d.id != "";
      if given {
        content := content[p := content[p].(id := d.id)];
        byID := byID[d.id := p];
      }
      if content[p].name == "" && d.name != "" {
        content := content[p := content[p].(name := d.name)];
      }
    }

    method ApplyCallDelta(d: CallDelta) returns (goOn: bool)
      requires Ready()
      modifies this
      ensures Delivers(goOn, CallStep(old(Now()), d, env))
    {
      var p;
      p, goOn := EnsureCallBlock(d);
      if !goOn { return; }
      ApplyIdentity(p, d);
      if d.args != "" {
        partials := partials[p := partials[p] + d.args];
        content := content[p := content[p].(arguments := Decoded(partials[p], env))];
      }
      goOn := Yield(BlockText(CallBlock, p, content[p].arguments));
    }

    method ApplyDetail(id: string, raw: string)
      requires Ready()
      modifies this`content
      ensures Now() == DetailStep(old(Now()), id, raw)
    {
      for i := 0 to |content|
        invariant |content| == |old(content)|
        invariant forall k | 0 <= k < |content| ::
          content[k] == if k < i then Signed(old(content)[k], id, raw) else old(content)[k]
      {
        if content[i].ToolCall? && content[i].id == id {
          content := content[i := content[i].(thoughtSignature := raw)];
        }
      }
    }

    method ApplyCallDeltas(calls: seq<CallDelta>) returns (goOn: bool)
      requires Ready()
      modifies this
      ensures Delivers(goOn, StepAll(old(Now()), CallParts(calls), env))
    {
      ghost var start, parts := Now(), CallParts(calls);
      goOn := true;
      for i := 0 to |calls|
        invariant goOn && Ready() && Now() == StepAll(start, parts[..i], env)
      {
        StepAllNext(start, parts, i, env);
        goOn := ApplyCallDelta(calls[i]);
        if !goOn { return; }
      }
      assert parts[..|calls|] == parts;
    }

    method ApplyDetails(details: seq<(string, string)>)
      requires Ready()
      modifies this
      ensures Now() == StepAll(old(Now()), Details(details), env) && events == old(events)
    {
      ghost var start, parts := Now(), Details(details);
      for i := 0 to |details|
        invariant Ready() && Now() == StepAll(start, parts[..i], env) && events == old(events)
      {
        StepAllNext(start, parts, i, env);
        ApplyDetail(details[i].0, details[i].1);
      }
      assert parts[..|details|] == parts;
    }

    method ApplyDeltas(text: string, reasoning: string, field: string) returns (goOn: bool)
      requires Ready()
      modifies this
      ensures Delivers(goOn, StepAll(old(Now()), TextParts(text, reasoning, field), env))
    {
      ghost var start, parts := Now(), TextParts(text, reasoning, field);
      ghost var first := if text == "" then [] else [TextPart(text)];
      ghost var second := if reasoning == "" then [] else [ReasoningPart(reasoning, field)];
      StepAllConcat(start, first, second, env);
      goOn := true;
      if text != "" {
        assert first[..0] == [];
        goOn := ApplyTextDelta(text);
        if !goOn { return; }
      }
      assert Now() == StepAll(start, first, env);
      if reasoning != "" {
        assert second[..0] == [];
        goOn := ApplyReasoningDelta(reasoning, field);
      }
    }

    method ApplyMetadata(finish: Option<string>)
      requires Ready()
      modifies this
      ensures Ready() && Now() == Metadata(old(Now()), finish)
    {
      if finish.Some? {
        hasFinishReason := true;
        var mapped := MapStopReason(finish.value);
        stopReason := mapped.0;
        if mapped.1 != "" { errorMessage := mapped.1; }
      }
    }

    method Apply(c: Chunk) returns (goOn: bool)
      requires Ready() && c.Chunk?
      modifies this
      ensures Delivers(goOn, ApplyChunk(old(Now()), c, env))
    {
      ghost var deltas, calls := TextParts(c.text, c.reasoning, c.field), CallParts(c.calls);
      ApplyMetadata(c.finish);
      ghost var start := Now();
      StepAllConcat(start, deltas + calls, Details(c.details), env);
      StepAllConcat(start, deltas, calls, env);
      goOn := ApplyDeltas(c.text, c.reasoning, c.field);
      if !goOn { return; }
      goOn := ApplyCallDeltas(c.calls);
      if !goOn { return; }
      ApplyDetails(c.details);
    }

    method DecodeBlocks(blocks: set<nat>)
      requires Ready() && ArgumentsDecoded(Now(), env) && forall p: nat | p in blocks :: IsCall(content, p)
      modifies this`content
      ensures content == old(content)
    {
      var todo := blocks;
      while todo != {}
        invariant todo <= blocks && content == old(content)
        decreases |todo|
      {
        var p: nat :| p in todo;
        todo := todo - {p};
        content := content[p := content[p].(arguments := Decoded(partials[p], env))];
      }
    }

    /** The last decoding finds every call's arguments decoded already, whatever order the
        maps are walked in. */
    method FinalizeToolCalls()
      requires Ready() && ArgumentsDecoded(Now(), env)
      modifies this`content
      ensures content == old(content)
    {
      DecodeBlocks(set i: int | i in byIndex :: byIndex[i]);
      DecodeBlocks(byID.Values);
    }

    /** The final state for a consumer that listens to the end; otherwise the first
        `limit` events of it. */
    predicate Ended(full: State)
      reads this
    {
      if |full.events| < limit then Now() == full else events == full.events[..limit]
    }

    method Close(last: Emitted)
      requires |events| < limit
      modifies this`events
      ensures var full := old(events) + [last, Complete];
              events == if |full| < limit then full else full[..limit]
    {
      var goOn := Yield(last);
      if goOn { goOn := Yield(Complete); }
    }

    method EndBlocks() returns (goOn: bool)
      requires Ready()
      modifies this`events
      ensures Delivers(goOn, old(Now()).(events := old(events) + Ends(content, 0)))
    {
      goOn := true;
      for i := 0 to |content|
        invariant goOn && |events| < limit && events + Ends(content, i) == old(events) + Ends(content, 0)
      {
        EndsGrow(content, i, events);
        goOn := Yield(BlockEnd(KindOf(content[i]), i));
        if !goOn { return; }
      }
    }

    method Finish()
      requires Ready() && ArgumentsDecoded(Now(), env)
      modifies this
      ensures Ended(Finished(old(Now())))
    {
      FinalizeToolCalls();
      var goOn := EndBlocks();
      if !goOn { return; }
      if !hasFinishReason {
        stopReason := Error;
        errorMessage := "Stream ended without finish_reason";
      } else if stopReason.Unset? {
        stopReason := Stop;
      }
      if stopReason.Stop? && (exists k :: 0 <= k < |content| && content[k].ToolCall?) {
        stopReason := ToolUse;
      }
      Close(if stopReason.Error? || stopReason.Aborted? then Errored else Done);
    }

    method FailWith(reason: StopReason, message: string)
      requires Ready()
      modifies this
      ensures Ended(Fail(old(Now()), reason, message))
    {
      stopReason, errorMessage := reason, message;
      Close(Errored);
    }

    /** The stream loop, from a fresh accumulator: what it leaves is what the steps say. */
    method Run(inputs: seq<Input>, reason: string)
      requires Now() == EMPTY.(events := []) && limit > 0
      modifies this
      ensures Ended(Stream(EMPTY, inputs, env, reason))
    {
      var goOn := Yield(Opened);
      if !goOn { return; }
      assert Now() == EMPTY && inputs[0..] == inputs;
      for i := 0 to |inputs|
        invariant Ready() && ArgumentsDecoded(Now(), env)
        invariant Stream(Now(), inputs[i..], env, reason) == Stream(EMPTY, inputs, env, reason)
      {
        StreamUnfolds(Now(), inputs, i, env, reason);
        match inputs[i] {
          case Breaks =>
            goOn := Yield(Broke);
            return;
          case Arrives(cancelled, chunk) =>
            if cancelled {
              FailWith(Aborted, reason);
              return;
            }
            if chunk.ErrorChunk? {
              FailWith(Error, ErrorText(chunk.message));
              return;
            }
            StepAllKeepsDecoded(Metadata(Now(), chunk.finish), Fragments(chunk), env);
            goOn := Apply(chunk);
            if !goOn { return; }
        }
      }
      assert inputs[|inputs|..] == [];
      Finish();
    }
  }
}
