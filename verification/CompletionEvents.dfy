/** The events of a chat-completions stream: the order they come in, and what a consumer
    can rebuild from them alone. */
module CompletionEvents {
  import opened Messages
  import opened Completions

  // ---- the order of events -----------------------------------------------------------------

  /** Where a stream stands: the kinds of the blocks started and how many have ended. */
  datatype Phase =
    | Waiting
    | Streaming(kinds: seq<BlockKind>)
    | Ending(kinds: seq<BlockKind>, ended: nat)
    | Closing
    | Closed
    | CutOff
    | Wrong

  /** Opened, then blocks that start as 0, 1, 2, ... with texts of their own kind only after
      their start; then one end for each block, in order; then Done, which needs every
      block ended, or Errored; then Complete.  A broken transport cuts the stream off. */
  function Advance(p: Phase, e: Emitted): Phase {
    match (p, e)
    case (Waiting, Opened) => Streaming([])
    case (Streaming(kinds), BlockStart(kind, i)) => if i == |kinds| then Streaming(kinds + [kind]) else Wrong
    case (Streaming(kinds), BlockText(kind, i, _)) => if i < |kinds| && kinds[i] == kind then p else Wrong
    case (Streaming(kinds), BlockEnd(kind, i)) =>
      if i == 0 < |kinds| && kinds[i] == kind then Ending(kinds, 1) else Wrong
    case (Ending(kinds, n), BlockEnd(kind, i)) =>
      if i == n < |kinds| && kinds[i] == kind then Ending(kinds, n + 1) else Wrong
    case (Streaming(kinds), Done) => if kinds == [] then Closing else Wrong
    case (Streaming(_), Errored) => Closing
    case (Ending(kinds, n), Done) => if n == |kinds| then Closing else Wrong
    case (Ending(kinds, n), Errored) => if n == |kinds| then Closing else Wrong
    case (Closing, Complete) => Closed
    case (Streaming(_), Broke) => CutOff
    case _ => Wrong
  }

  function Follow(p: Phase, events: seq<Emitted>): Phase {
    if events == [] then p else Advance(Follow(p, events[..|events| - 1]), events[|events| - 1])
  }

  function Kinds(content: seq<Block>): (kinds: seq<BlockKind>)
    ensures |kinds| == |content| && forall k | 0 <= k < |kinds| :: kinds[k] == KindOf(content[k])
  {
    seq(|content|, k requires 0 <= k < |content| => KindOf(content[k]))
  }

  lemma FollowOne(p: Phase, events: seq<Emitted>, e: Emitted)
    ensures Follow(p, events + [e]) == Advance(Follow(p, events), e)
  {
    assert (events + [e])[..|events|] == events;
  }

  // ---- what a consumer rebuilds ----------------------------------------------------------------

  /** The text of each block so far: text and reasoning grow, arguments are replaced. */
  function Heard(texts: seq<string>, e: Emitted): seq<string> {
    match e
    case BlockStart(kind, _) => texts + [if kind.CallBlock? then "{}" else ""]
    case BlockText(kind, i, text) =>
      if i >= |texts| then texts else texts[i := if kind.CallBlock? then text else texts[i] + text]
    case _ => texts
  }

  function HeardAll(events: seq<Emitted>): seq<string> {
    if events == [] then [] else Heard(HeardAll(events[..|events| - 1]), events[|events| - 1])
  }

  function TextOf(b: Block): string {
    match b
    case Text(text, _) => text
    case Thinking(thinking, _, _) => thinking
    case ToolCall(_, _, arguments, _) => arguments
    case _ => ""
  }

  function Texts(content: seq<Block>): (texts: seq<string>)
    ensures |texts| == |content| && forall k | 0 <= k < |texts| :: texts[k] == TextOf(content[k])
  {
    seq(|content|, k requires 0 <= k < |content| => TextOf(content[k]))
  }

  lemma HeardOne(events: seq<Emitted>, e: Emitted)
    ensures HeardAll(events + [e]) == Heard(HeardAll(events), e)
  {
    assert (events + [e])[..|events|] == events;
  }

  /** While the stream runs, its events tell exactly the blocks it has. */
  ghost predicate Tells(s: State) {
    Follow(Waiting, s.events) == Streaming(Kinds(s.content)) && HeardAll(s.events) == Texts(s.content)
  }

  lemma StartTells(s: State, b: Block)
    requires Tells(s) && TextOf(b) == if b.ToolCall? then "{}" else ""
    ensures Tells(StartBlock(s, b))
  {
    var e := BlockStart(KindOf(b), |s.content|);
    FollowOne(Waiting, s.events, e);
    HeardOne(s.events, e);
    assert Kinds(s.content + [b]) == Kinds(s.content) + [KindOf(b)];
    assert Texts(s.content + [b]) == Texts(s.content) + [TextOf(b)];
  }

  /** A block whose text grows by what the event says, or is replaced by it. */
  lemma TextTells(s: State, t: State, p: nat, b: Block, kind: BlockKind, text: string)
    requires Tells(s) && p < |s.content| && KindOf(s.content[p]) == KindOf(b) == kind
    requires t.content == s.content[p := b] && t.events == s.events + [BlockText(kind, p, text)]
    requires TextOf(b) == if kind.CallBlock? then text else TextOf(s.content[p]) + text
    ensures Tells(t)
  {
    var e := BlockText(kind, p, text);
    FollowOne(Waiting, s.events, e);
    HeardOne(s.events, e);
    assert Kinds(t.content) == Kinds(s.content);
    assert Texts(t.content) == Texts(s.content)[p := TextOf(b)];
  }

  lemma SilentTells(s: State, t: State)
    requires Tells(s) && t.events == s.events && Kinds(t.content) == Kinds(s.content)
      && Texts(t.content) == Texts(s.content)
    ensures Tells(t)
  {
  }

  lemma TextStepTells(s: State, delta: string)
    requires WellFormed(s) && Tells(s)
    ensures Tells(TextStep(s, delta))
  {
    if s.text.None? { StartTells(s, Text("", "")); }
    var e := EnsureText(s);
    var p := e.text.value;
    TextTells(e, TextStep(s, delta), p, e.content[p].(text := e.content[p].text + delta), TextBlock, delta);
  }

  lemma ReasoningStepTells(s: State, delta: string, field: string, env: Env)
    requires WellFormed(s) && Tells(s)
    ensures Tells(ReasoningStep(s, delta, field, env))
  {
    if s.thinking.None? { StartTells(s, Thinking("", Signature(field, env), false)); }
    var e := EnsureThinking(s, field, env);
    var p := e.thinking.value;
    TextTells(e, ReasoningStep(s, delta, field, env), p, e.content[p].(thinking := e.content[p].thinking + delta),
              ThinkingBlock, delta);
  }

  lemma IdentifyTells(s: State, p: nat, d: CallDelta)
    requires WellFormed(s) && Tells(s) && IsCall(s.content, p)
    ensures Tells(Identify(s, p, d))
  {
    var t := Identify(s, p, d);
    assert Kinds(t.content) == Kinds(s.content) && Texts(t.content) == Texts(s.content);
  }

  lemma ExtendTells(s: State, p: nat, args: string, env: Env)
    requires WellFormed(s) && Tells(s) && IsCall(s.content, p)
    ensures Tells(ExtendCall(s, p, args, env))
  {
    var t := ExtendCall(s, p, args, env);
    assert t.content == s.content[p := t.content[p]];
    TextTells(s, t, p, t.content[p], CallBlock, t.content[p].arguments);
  }

  lemma CallStepTells(s: State, d: CallDelta, env: Env)
    requires WellFormed(s) && Tells(s)
    ensures Tells(CallStep(s, d, env))
  {
    var found, b := Lookup(s, d), ToolCall(d.id, d.name, "{}", "");
    if found.None? {
      StartTells(s, b);
      SilentTells(StartBlock(s, b), StartCall(s, d));
    }
    var p := if found.Some? then found.value else |s.content|;
    var t := if found.Some? then s else StartCall(s, d);
    IdentifyTells(t, p, d);
    ExtendTells(Identify(t, p, d), p, d.args, env);
  }

  lemma DetailStepTells(s: State, id: string, raw: string)
    requires WellFormed(s) && Tells(s)
    ensures Tells(DetailStep(s, id, raw))
  {
    var t := DetailStep(s, id, raw);
    assert forall k | 0 <= k < |s.content| :: t.content[k] == Signed(s.content[k], id, raw);
    assert Kinds(t.content) == Kinds(s.content) && Texts(t.content) == Texts(s.content);
  }

  lemma StepTells(s: State, f: Fragment, env: Env)
    requires WellFormed(s) && Tells(s)
    ensures Tells(Step(s, f, env))
  {
    match f {
      case TextPart(text) => TextStepTells(s, text);
      case ReasoningPart(text, field) => ReasoningStepTells(s, text, field, env);
      case CallPart(d) => CallStepTells(s, d, env);
      case Detail(id, raw) => DetailStepTells(s, id, raw);
    }
  }

  lemma {:induction false} StepAllTells(s: State, fs: seq<Fragment>, env: Env)
    requires WellFormed(s) && Tells(s)
    ensures Tells(StepAll(s, fs, env))
    decreases |fs|
  {
    if fs != [] {
      StepAllTells(s, fs[..|fs| - 1], env);
      StepTells(StepAll(s, fs[..|fs| - 1], env), fs[|fs| - 1], env);
    }
  }

  // ---- how a stream ends ----------------------------------------------------------------------------

  function AfterEnds(kinds: seq<BlockKind>, n: nat): Phase {
    if n == 0 then Streaming(kinds) else Ending(kinds, n)
  }

  lemma EndFollows(events: seq<Emitted>, content: seq<Block>, i: nat)
    requires i < |content| && Follow(Waiting, events) == AfterEnds(Kinds(content), i)
    ensures var more := events + [BlockEnd(KindOf(content[i]), i)];
            Follow(Waiting, more) == AfterEnds(Kinds(content), i + 1) && HeardAll(more) == HeardAll(events)
  {
    FollowOne(Waiting, events, BlockEnd(KindOf(content[i]), i));
    HeardOne(events, BlockEnd(KindOf(content[i]), i));
  }

  ghost predicate EndedUpTo(events: seq<Emitted>, content: seq<Block>, i: nat, heard: seq<string>) {
    Follow(Waiting, events) == AfterEnds(Kinds(content), i) && HeardAll(events) == heard
  }

  lemma {:induction false} EndsFollow(events: seq<Emitted>, content: seq<Block>, i: nat, heard: seq<string>)
    requires i <= |content| && EndedUpTo(events, content, i, heard)
    ensures EndedUpTo(events + Ends(content, i), content, |content|, heard)
    decreases |content| - i
  {
    if i == |content| {
      assert events + Ends(content, i) == events;
    } else {
      var e := BlockEnd(KindOf(content[i]), i);
      EndFollows(events, content, i);
      EndsFollow(events + [e], content, i + 1, heard);
      EndsGrow(content, i, events);
    }
  }

  lemma CloseFollows(events: seq<Emitted>, last: Emitted)
    requires last == Done || last == Errored
    requires Advance(Follow(Waiting, events), last) == Closing
    ensures Follow(Waiting, events + [last, Complete]) == Closed
      && HeardAll(events + [last, Complete]) == HeardAll(events)
  {
    FollowOne(Waiting, events, last);
    HeardOne(events, last);
    FollowOne(Waiting, events + [last], Complete);
    HeardOne(events + [last], Complete);
    assert events + [last, Complete] == events + [last] + [Complete];
  }

  lemma FinishFollows(s: State)
    requires WellFormed(s) && Tells(s)
    ensures Follow(Waiting, Finished(s).events) == Closed && HeardAll(Finished(s).events) == Texts(Finished(s).content)
  {
    var reason := FinalReason(s);
    EndsFollow(s.events, s.content, 0, HeardAll(s.events));
    CloseFollows(s.events + Ends(s.content, 0), if reason.Error? || reason.Aborted? then Errored else Done);
  }

  lemma FailFollows(s: State, reason: StopReason, message: string)
    requires Tells(s)
    ensures Follow(Waiting, Fail(s, reason, message).events) == Closed
    ensures HeardAll(Fail(s, reason, message).events) == Texts(s.content)
  {
    CloseFollows(s.events, Errored);
  }

  lemma BreakFollows(s: State)
    requires Tells(s)
    ensures Follow(Waiting, s.events + [Broke]) == CutOff && HeardAll(s.events + [Broke]) == Texts(s.content)
  {
    FollowOne(Waiting, s.events, Broke);
    HeardOne(s.events, Broke);
  }

  /** How the stream over some input comes to its end. */
  function EndOf(inputs: seq<Input>): Phase {
    if inputs == [] then Closed
    else if inputs[0].Breaks? then CutOff
    else if inputs[0].cancelled || inputs[0].chunk.ErrorChunk? then Closed
    else EndOf(inputs[1..])
  }

  lemma {:induction false} StreamFollowsFrom(s: State, inputs: seq<Input>, env: Env, reason: string)
    requires WellFormed(s) && Tells(s)
    ensures var t := Stream(s, inputs, env, reason);
            Follow(Waiting, t.events) == EndOf(inputs) && HeardAll(t.events) == Texts(t.content)
    decreases |inputs|
  {
    if inputs == [] {
      FinishFollows(s);
    } else if inputs[0].Breaks? {
      BreakFollows(s);
    } else if inputs[0].cancelled {
      FailFollows(s, Aborted, reason);
    } else if inputs[0].chunk.ErrorChunk? {
      FailFollows(s, Error, ErrorText(inputs[0].chunk.message));
    } else {
      var c := inputs[0].chunk;
      SilentTells(s, Metadata(s, c.finish));
      StepAllTells(Metadata(s, c.finish), Fragments(c), env);
      StreamFollowsFrom(ApplyChunk(s, c, env), inputs[1..], env, reason);
    }
  }

  /** Every stream follows the order to a close, unless its transport breaks, and a
      consumer that puts the texts together has the final reply's. */
  lemma StreamFollows(inputs: seq<Input>, env: Env, reason: string)
    ensures var t := Stream(EMPTY, inputs, env, reason);
            Follow(Waiting, t.events) == EndOf(inputs) && HeardAll(t.events) == Texts(t.content)
  {
    FollowOne(Waiting, [], Opened);
    HeardOne([], Opened);
    assert [] + [Opened] == EMPTY.events;
    assert Tells(EMPTY);
    StreamFollowsFrom(EMPTY, inputs, env, reason);
  }

  /** A consumer that stops after `n` events has not seen anything out of order either. */
  lemma {:induction false} PrefixFollows(events: seq<Emitted>, n: nat)
    requires n <= |events| && !Follow(Waiting, events).Wrong?
    ensures !Follow(Waiting, events[..n]).Wrong?
    decreases |events|
  {
    if n == |events| {
      assert events[..n] == events;
    } else {
      PrefixFollows(events[..|events| - 1], n);
      assert events[..|events| - 1][..n] == events[..n];
    }
  }

  // ---- how a reply is reported -----------------------------------------------------------------

  /** What is read of a stream: everything before the first input that stops it. */
  function Heeded(inputs: seq<Input>): (heard: seq<Input>)
    ensures heard <= inputs && Clean(heard) && (|heard| < |inputs| ==> Stops(inputs[|heard|]))
  {
    if inputs == [] || Stops(inputs[0]) then [] else [inputs[0]] + Heeded(inputs[1..])
  }

  /** The finish reasons among the chunks, in order. */
  function Finishes(inputs: seq<Input>): seq<string>
    requires Clean(inputs)
  {
    if inputs == [] then []
    else
      var finish := inputs[|inputs| - 1].chunk.finish;
      Finishes(inputs[..|inputs| - 1]) + (if finish.Some? then [finish.value] else [])
  }

  /** The last complaint a provider made in a finish reason. */
  function LastComplaint(finishes: seq<string>): string {
    if finishes == [] then ""
    else
      var complaint := MapStopReason(finishes[|finishes| - 1]).1;
      if complaint != "" then complaint else LastComplaint(finishes[..|finishes| - 1])
  }

  predicate CallsSome(inputs: seq<Input>)
    requires Clean(inputs)
  {
    exists k :: 0 <= k < |inputs| && inputs[k].chunk.calls != []
  }

  /** The reason a reply stopped for: what the last finish reason means, but that a reply
      with calls stops for its tools, and that a reply without a reason failed. */
  function ReasonOf(inputs: seq<Input>): StopReason
    requires Clean(inputs)
  {
    var finishes := Finishes(inputs);
    if finishes == [] then Error
    else
      var stop := MapStopReason(finishes[|finishes| - 1]).0;
      if stop.Stop? && CallsSome(inputs) then ToolUse else stop
  }

  predicate SomeCall(fs: seq<Fragment>) {
    exists k :: 0 <= k < |fs| && fs[k].CallPart?
  }

  predicate SameReason(s: State, t: State) {
    s.hasFinishReason == t.hasFinishReason && s.stopReason == t.stopReason && s.errorMessage == t.errorMessage
  }

  lemma CallStepCalls(s: State, d: CallDelta, env: Env)
    requires WellFormed(s)
    ensures SameReason(s, CallStep(s, d, env)) && HasCall(CallStep(s, d, env).content)
  {
    var found := Lookup(s, d);
    var p := if found.Some? then found.value else |s.content|;
    var t := Identify(if found.Some? then s else StartCall(s, d), p, d);
    assert t.content[p].ToolCall?;
    assert ExtendCall(t, p, d.args, env).content[p].ToolCall?;
  }

  lemma SameKinds(a: seq<Block>, b: seq<Block>)
    requires |a| <= |b|
    requires forall k | 0 <= k < |a| :: a[k].ToolCall? <==> b[k].ToolCall?
    requires forall k | |a| <= k < |b| :: !b[k].ToolCall?
    ensures HasCall(a) <==> HasCall(b)
  {
    if k :| 0 <= k < |a| && a[k].ToolCall? { assert b[k].ToolCall?; }
  }

  lemma StepKeepsReason(s: State, f: Fragment, env: Env)
    requires WellFormed(s)
    ensures SameReason(s, Step(s, f, env))
    ensures HasCall(Step(s, f, env).content) <==> HasCall(s.content) || f.CallPart?
  {
    match f {
      case CallPart(d) => CallStepCalls(s, d, env);
      case _ => SameKinds(s.content, Step(s, f, env).content);
    }
  }

  lemma {:induction false} StepAllKeepsReason(s: State, fs: seq<Fragment>, env: Env)
    requires WellFormed(s)
    ensures SameReason(s, StepAll(s, fs, env))
    ensures HasCall(StepAll(s, fs, env).content) <==> HasCall(s.content) || SomeCall(fs)
    decreases |fs|
  {
    if fs != [] {
      var init, last := fs[..|fs| - 1], fs[|fs| - 1];
      StepAllKeepsReason(s, init, env);
      StepKeepsReason(StepAll(s, init, env), last, env);
      hide Step, HasCall;
      assert SomeCall(fs) <==> SomeCall(init) || last.CallPart? by {
        if k :| 0 <= k < |fs| && fs[k].CallPart? { if k < |init| { assert init[k].CallPart?; } }
        if k :| 0 <= k < |init| && init[k].CallPart? { assert fs[k].CallPart?; }
      }
    }
  }

  lemma ChunkCalls(c: Chunk)
    requires c.Chunk?
    ensures SomeCall(Fragments(c)) <==> c.calls != []
  {
    if c.calls != [] {
      assert Fragments(c)[|TextParts(c.text, c.reasoning, c.field)|] == CallPart(c.calls[0]);
    }
  }

  /** The accumulator after the chunks read. */
  function After(inputs: seq<Input>, env: Env): (s: State)
    requires Clean(inputs)
    ensures WellFormed(s)
  {
    if inputs == [] then EMPTY else ApplyChunk(After(inputs[..|inputs| - 1], env), inputs[|inputs| - 1].chunk, env)
  }

  lemma CallsOneMore(inputs: seq<Input>)
    requires Clean(inputs) && inputs != []
    ensures CallsSome(inputs) <==> CallsSome(inputs[..|inputs| - 1]) || inputs[|inputs| - 1].chunk.calls != []
  {
    var init := inputs[..|inputs| - 1];
    if k :| 0 <= k < |init| && init[k].chunk.calls != [] { assert inputs[k].chunk.calls != []; }
    if k :| 0 <= k < |inputs| && inputs[k].chunk.calls != [] {
      if k < |init| { assert init[k].chunk.calls != []; }
    }
  }

  /** The accumulator has taken in these finish reasons. */
  predicate Took(s: State, finishes: seq<string>) {
    && (s.hasFinishReason <==> finishes != [])
    && s.stopReason == (if finishes == [] then Unset else MapStopReason(finishes[|finishes| - 1]).0)
    && s.errorMessage == LastComplaint(finishes)
  }

  lemma MetadataTakes(s: State, finishes: seq<string>, finish: Option<string>)
    requires Took(s, finishes)
    ensures Took(Metadata(s, finish), finishes + (if finish.Some? then [finish.value] else []))
    ensures Metadata(s, finish).content == s.content
  {
    hide MapStopReason;
    var more := finishes + (if finish.Some? then [finish.value] else []);
    if finish.Some? {
      assert more[..|more| - 1] == finishes;
    } else {
      assert more == finishes;
    }
  }

  lemma SameTook(s: State, t: State, finishes: seq<string>)
    requires Took(s, finishes) && SameReason(s, t)
    ensures Took(t, finishes)
  {
  }

  lemma {:induction false} AfterIs(inputs: seq<Input>, env: Env)
    requires Clean(inputs)
    ensures Took(After(inputs, env), Finishes(inputs))
    ensures HasCall(After(inputs, env).content) <==> CallsSome(inputs)
  {
    if inputs != [] {
      hide HasCall, CallsSome, StepAll, Fragments, SomeCall, Metadata, Took, SameReason, WellFormed;
      var init, c := inputs[..|inputs| - 1], inputs[|inputs| - 1].chunk;
      var s := After(init, env);
      AfterIs(init, env);
      MetadataTakes(s, Finishes(init), c.finish);
      StepAllKeepsReason(Metadata(s, c.finish), Fragments(c), env);
      SameTook(Metadata(s, c.finish), StepAll(Metadata(s, c.finish), Fragments(c), env), Finishes(inputs));
      ChunkCalls(c);
      CallsOneMore(inputs);
    }
  }

  lemma {:induction false} StreamReaches(inputs: seq<Input>, i: nat, env: Env, reason: string)
    requires i <= |inputs| && Clean(inputs[..i])
    ensures Stream(EMPTY, inputs, env, reason) == Stream(After(inputs[..i], env), inputs[i..], env, reason)
  {
    if i == 0 {
      assert inputs[0..] == inputs;
    } else {
      assert inputs[..i][..i - 1] == inputs[..i - 1];
      assert !Stops(inputs[..i][i - 1]);
      StreamReaches(inputs, i - 1, env, reason);
      StreamUnfolds(After(inputs[..i - 1], env), inputs, i - 1, env, reason);
    }
  }

  predicate ClosesWith(events: seq<Emitted>, last: Emitted) {
    |events| >= 2 && events[|events| - 2..] == [last, Complete]
  }

  lemma FinishedReports(inputs: seq<Input>, env: Env)
    requires Clean(inputs)
    ensures var t, finishes := Finished(After(inputs, env)), Finishes(inputs);
            && t.stopReason == ReasonOf(inputs)
            && t.errorMessage == (if finishes == [] then "Stream ended without finish_reason"
                                  else LastComplaint(finishes))
            && ClosesWith(t.events, if ReasonOf(inputs).Error? then Errored else Done)
  {
    hide After, LastComplaint, Finishes, HasCall, CallsSome, Ends, MapStopReason;
    AfterIs(inputs, env);
    if Finishes(inputs) != [] { MappedIsSet(Finishes(inputs)[|Finishes(inputs)| - 1]); }
  }

  /** Only the source's own names are reasons. */
  lemma MappedIsSet(finish: string)
    ensures var r := MapStopReason(finish).0; r == Stop || r == Length || r == ToolUse || r == Error
  {
  }

  /** How the reply of any stream is reported.  Unless something stopped it, by its last
      finish reason and whether it called a tool; it is done unless that reason is an error,
      and the last complaint stays its message even when a later reason is none. */
  lemma FinalReasonIs(inputs: seq<Input>, env: Env, reason: string)
    ensures var t, heard := Stream(EMPTY, inputs, env, reason), Heeded(inputs);
            if heard == inputs
            then && t.stopReason == ReasonOf(inputs)
                 && t.errorMessage == (if Finishes(inputs) == [] then "Stream ended without finish_reason"
                                       else LastComplaint(Finishes(inputs)))
                 && ClosesWith(t.events, if ReasonOf(inputs).Error? then Errored else Done)
            else match inputs[|heard|]
                 case Breaks => t.events != [] && t.events[|t.events| - 1] == Broke
                 case Arrives(cancelled, chunk) =>
                   && t.stopReason == (if cancelled then Aborted else Error)
                   && t.errorMessage == (if cancelled then reason else ErrorText(chunk.message))
                   && ClosesWith(t.events, Errored)
  {
    var n := |Heeded(inputs)|;
    assert inputs[..n] == Heeded(inputs);
    StreamReaches(inputs, n, env, reason);
    if n < |inputs| {
      StreamUnfolds(After(inputs[..n], env), inputs, n, env, reason);
      hide Stream, After;
    } else {
      assert inputs[n..] == [];
      FinishedReports(inputs, env);
      hide Finished, After, ReasonOf, LastComplaint;
    }
  }
}
