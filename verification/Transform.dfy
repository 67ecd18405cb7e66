/** Rewriting a transcript for one provider: call ids are normalised, blocks a
    provider cannot accept are replaced or dropped, failed replies are removed
    and unanswered calls receive a synthetic result. */
module Transform {
  import opened Messages

  type Normalizer = (string, Model, Message) -> string

  const USER_IMAGE_PLACEHOLDER := "(image omitted: model does not support images)"
  const TOOL_IMAGE_PLACEHOLDER := "(tool image omitted: model does not support images)"
  const NO_RESULT := "No result provided"

  // ---- images ---------------------------------------------------------------

  predicate IsPlaceholder(b: Block, placeholder: string) {
    b.Text? && b.text == placeholder
  }

  /** What one block becomes; `afterPlaceholder` says that the previous output is
      a placeholder already. */
  function BlockWithoutImages(b: Block, placeholder: string, afterPlaceholder: bool): seq<Block> {
    if !b.Image? then [b] else if afterPlaceholder then [] else [Text(placeholder, "")]
  }

  predicate LeavesPlaceholder(b: Block, placeholder: string) {
    b.Image? || IsPlaceholder(b, placeholder)
  }

  /** The content with every run of images collapsed into one placeholder; a run
      that directly follows the placeholder text disappears. */
  function WithoutImages(content: seq<Block>, placeholder: string, afterPlaceholder: bool): seq<Block> {
    if content == [] then []
    else BlockWithoutImages(content[0], placeholder, afterPlaceholder)
         + WithoutImages(content[1..], placeholder, LeavesPlaceholder(content[0], placeholder))
  }

  predicate HasImages(content: seq<Block>) {
    exists k | 0 <= k < |content| :: content[k].Image?
  }

  /** What a copy-on-write pass has produced for the first `i` blocks. */
  function Produced(result: Option<seq<Block>>, content: seq<Block>, i: nat): seq<Block>
    requires i <= |content|
  {
    if result.Some? then result.value else content[..i]
  }

  lemma StepWithoutImages(done: seq<Block>, content: seq<Block>, i: nat, placeholder: string, after: bool)
    requires i < |content|
    ensures done + WithoutImages(content[i..], placeholder, after)
         == done + BlockWithoutImages(content[i], placeholder, after)
            + WithoutImages(content[i + 1..], placeholder, LeavesPlaceholder(content[i], placeholder))
  {
    assert content[i..][1..] == content[i + 1..];
  }

  method ReplaceImagesWithPlaceholder(content: seq<Block>, placeholder: string)
    returns (replaced: seq<Block>, changed: bool)
    ensures replaced == WithoutImages(content, placeholder, false)
    ensures changed <==> HasImages(content)
  {
    var result: Option<seq<Block>> := None;
    var previousWasPlaceholder := false;
    assert WithoutImages([], placeholder, true) == WithoutImages([], placeholder, false) == [];
    hide WithoutImages;
    for i := 0 to |content|
      invariant result.Some? <==> exists k | 0 <= k < i :: content[k].Image?
      invariant Produced(result, content, i) + WithoutImages(content[i..], placeholder, previousWasPlaceholder)
             == WithoutImages(content, placeholder, false)
    {
      var block := content[i];
      ghost var before := Produced(result, content, i);
      StepWithoutImages(before, content, i, placeholder, previousWasPlaceholder);
      ghost var step := BlockWithoutImages(block, placeholder, previousWasPlaceholder);
      if block.Image? {
        if result.None? {
          result := Some(content[..i]);
        }
        if !previousWasPlaceholder {
          result := Some(result.value + [Text(placeholder, "")]);
        }
        previousWasPlaceholder := true;
      } else {
        if result.Some? {
          result := Some(result.value + [block]);
        }
        previousWasPlaceholder := IsPlaceholder(block, placeholder);
      }
      assert Produced(result, content, i + 1) == before + step;
    }
    match result {
      case None => replaced, changed := content, false;
      case Some(blocks) => replaced, changed := blocks, true;
    }
    assert Produced(result, content, |content|) == replaced;
  }

  function ProperBlocks(content: seq<Block>, placeholder: string): seq<Block> {
    if content == [] then []
    else (if content[0].Image? || IsPlaceholder(content[0], placeholder) then [] else [content[0]])
         + ProperBlocks(content[1..], placeholder)
  }

  function NonImages(content: seq<Block>): seq<Block> {
    if content == [] then []
    else (if content[0].Image? then [] else [content[0]]) + NonImages(content[1..])
  }

  /** Which blocks of the output the replacement put there itself. */
  function Inserted(content: seq<Block>, placeholder: string, after: bool): (marks: seq<bool>)
    ensures |marks| == |WithoutImages(content, placeholder, after)|
  {
    if content == [] then []
    else (if !content[0].Image? then [false] else if after then [] else [true])
         + Inserted(content[1..], placeholder, LeavesPlaceholder(content[0], placeholder))
  }

  function Unmarked(out: seq<Block>, marks: seq<bool>): seq<Block>
    requires |marks| == |out|
  {
    if out == [] then [] else (if marks[0] then [] else [out[0]]) + Unmarked(out[1..], marks[1..])
  }

  /** An inserted block is a placeholder that does not directly follow another one. */
  predicate StandsAlone(out: seq<Block>, marks: seq<bool>, placeholder: string, after: bool, k: nat)
    requires k < |out| == |marks|
  {
    marks[k] ==>
      out[k] == Text(placeholder, "") && (if k == 0 then !after else !IsPlaceholder(out[k - 1], placeholder))
  }

  /** The blocks that were not inserted are those that are no images, in order, and no inserted
      placeholder directly follows a placeholder, inserted or not. */
  lemma {:induction false} InsertedStandAlone(content: seq<Block>, placeholder: string, after: bool)
    ensures var out, marks := WithoutImages(content, placeholder, after), Inserted(content, placeholder, after);
            && Unmarked(out, marks) == NonImages(content)
            && forall k | 0 <= k < |out| :: StandsAlone(out, marks, placeholder, after, k)
  {
    if content != [] {
      var next := LeavesPlaceholder(content[0], placeholder);
      InsertedStandAlone(content[1..], placeholder, next);
      var out, marks := WithoutImages(content, placeholder, after), Inserted(content, placeholder, after);
      var tail, rest := WithoutImages(content[1..], placeholder, next), Inserted(content[1..], placeholder, next);
      if content[0].Image? && after {
        assert out == tail && marks == rest;
        forall k | 0 <= k < |out| ensures StandsAlone(out, marks, placeholder, after, k) {
          assert StandsAlone(tail, rest, placeholder, next, k);
        }
      } else {
        assert out[1..] == tail && marks[1..] == rest && (IsPlaceholder(out[0], placeholder) <==> next);
        forall k | 0 <= k < |out| ensures StandsAlone(out, marks, placeholder, after, k) {
          if k > 0 {
            assert StandsAlone(tail, rest, placeholder, next, k - 1);
            assert out[k] == tail[k - 1] && marks[k] == rest[k - 1];
          }
          if k > 1 { assert out[k - 1] == tail[k - 2]; }
        }
      }
    }
  }

  /** Nothing but images goes: the other blocks survive in order, no image does,
      and a placeholder stands wherever images stood. */
  lemma {:induction false} ImagesAreReplaced(content: seq<Block>, placeholder: string, after: bool)
    ensures var out := WithoutImages(content, placeholder, after);
            && !HasImages(out)
            && ProperBlocks(out, placeholder) == ProperBlocks(content, placeholder)
            && (HasImages(content) && !after ==> exists b <- out :: IsPlaceholder(b, placeholder))
            && WithoutImages(out, placeholder, after) == out
  {
    if content != [] {
      var rest := content[1..];
      assert content == [content[0]] + rest;
      if content[0].Image? {
        ImagesAreReplaced(rest, placeholder, true);
        var tail := WithoutImages(rest, placeholder, true);
        if !after {
          var out := [Text(placeholder, "")] + tail;
          assert out[1..] == tail;
          assert IsPlaceholder(out[0], placeholder);
        } else {
          assert [] + tail == tail;
        }
      } else {
        ImagesAreReplaced(rest, placeholder, IsPlaceholder(content[0], placeholder));
        var tail := WithoutImages(rest, placeholder, IsPlaceholder(content[0], placeholder));
        var out := [content[0]] + tail;
        assert out[1..] == tail;
        assert out[0] == content[0];
      }
    }
  }

  // ---- assistant content ----------------------------------------------------

  /** Unicode White_Space, the characters a Go TrimSpace removes. */
  predicate IsSpace(c: char) {
    || '\t' <= c <= '\r' || c == ' ' || c == '\U{85}' || c == '\U{A0}' || c == '\U{1680}'
    || '\U{2000}' <= c <= '\U{200A}' || c == '\U{2028}' || c == '\U{2029}' || c == '\U{202F}'
    || c == '\U{205F}' || c == '\U{3000}'
  }

  predicate IsBlank(s: string) {
    forall c <- s :: IsSpace(c)
  }

  predicate SameModel(m: Message, model: Model) {
    m.provider == model.provider && m.api == model.api && m.model == model.id
  }

  /** The id a call of `source` carries after the rewrite. */
  function RenamedID(id: string, source: Message, model: Model, normalize: Option<Normalizer>): string {
    if SameModel(source, model) || normalize.None? then id else normalize.value(id, model, source)
  }

  /** What one block of the assistant message `source` becomes. */
  function RewriteBlock(b: Block, source: Message, model: Model, normalize: Option<Normalizer>): seq<Block> {
    var same := SameModel(source, model);
    match b
    case Thinking(thinking, signature, redacted) =>
      if redacted then (if same then [b] else [])
      else if same && signature != "" then [b]
      else if IsBlank(thinking) then []
      else if same then [b]
      else [Text(thinking, "")]
    case Text(text, _) => if same then [b] else [Text(text, "")]
    case ToolCall(id, name, arguments, _) =>
      if same then [b] else [ToolCall(RenamedID(id, source, model, normalize), name, arguments, "")]
    case _ => [b]
  }

  function RewriteContent(content: seq<Block>, source: Message, model: Model,
                          normalize: Option<Normalizer>): seq<Block>
  {
    if content == [] then []
    else RewriteBlock(content[0], source, model, normalize) + RewriteContent(content[1..], source, model, normalize)
  }

  /** The renamings that the calls of `content` add to those already recorded. */
  function RecordRenames(content: seq<Block>, source: Message, model: Model, normalize: Option<Normalizer>,
                         ids: map<string, string>): map<string, string>
  {
    if content == [] then ids
    else RecordRenames(content[1..], source, model, normalize, RecordRename(content[0], source, model, normalize, ids))
  }

  function RecordRename(b: Block, source: Message, model: Model, normalize: Option<Normalizer>,
                        ids: map<string, string>): map<string, string>
  {
    if b.ToolCall? && RenamedID(b.id, source, model, normalize) != b.id
    then ids[b.id := RenamedID(b.id, source, model, normalize)]
    else ids
  }

  lemma StepRewrite(done: seq<Block>, content: seq<Block>, i: nat, source: Message, model: Model,
                    normalize: Option<Normalizer>, ids: map<string, string>)
    requires i < |content|
    ensures done + RewriteContent(content[i..], source, model, normalize)
         == done + RewriteBlock(content[i], source, model, normalize)
            + RewriteContent(content[i + 1..], source, model, normalize)
    ensures RecordRenames(content[i..], source, model, normalize, ids)
         == RecordRenames(content[i + 1..], source, model, normalize,
                          RecordRename(content[i], source, model, normalize, ids))
  {
    assert content[i..][1..] == content[i + 1..];
  }

  /** The copy-on-write pass over one assistant message. It returns exactly the
      per-block rewrite, and says "unchanged" only when that is the input. */
  method TransformAssistantContent(message: Message, model: Model, isSameModel: bool,
                                   normalize: Option<Normalizer>, ids: map<string, string>)
    returns (content: seq<Block>, changed: bool, renames: map<string, string>)
    requires isSameModel == SameModel(message, model)
    ensures content == RewriteContent(message.content, message, model, normalize)
    ensures !changed ==> content == message.content
    ensures renames == RecordRenames(message.content, message, model, normalize, ids)
  {
    var input := message.content;
    var result: Option<seq<Block>> := None;
    renames := ids;
    for i := 0 to |input|
      invariant Produced(result, input, i) + RewriteContent(input[i..], message, model, normalize)
             == RewriteContent(input, message, model, normalize)
      invariant RecordRenames(input[i..], message, model, normalize, renames)
             == RecordRenames(input, message, model, normalize, ids)
    {
      var block := input[i];
      ghost var before := Produced(result, input, i);
      ghost var step := RewriteBlock(block, message, model, normalize);
      StepRewrite(before, input, i, message, model, normalize, renames);
      match block {
        case Thinking(thinking, signature, redacted) =>
          if redacted {
            if isSameModel { result := Keep(result, block); } else { result := Drop(result, input, i); }
          } else if isSameModel && signature != "" {
            result := Keep(result, block);
          } else if IsBlank(thinking) {
            result := Drop(result, input, i);
          } else if isSameModel {
            result := Keep(result, block);
          } else {
            result := Append(result, input, i, Text(thinking, ""));
          }
        case Text(text, _) =>
          if isSameModel { result := Keep(result, block); } else { result := Append(result, input, i, Text(text, "")); }
        case ToolCall(id, name, arguments, thoughtSignature) =>
          var toolCall, blockChanged := block, false;
          if !isSameModel {
            blockChanged := thoughtSignature != "";
            toolCall := toolCall.(thoughtSignature := "");
          }
          if !isSameModel && normalize.Some? {
            var normalizedID := normalize.value(id, model, message);
            if normalizedID != id {
              renames := renames[id := normalizedID];
              toolCall := toolCall.(id := normalizedID);
              blockChanged := true;
            }
          }
          if blockChanged { result := Append(result, input, i, toolCall); } else { result := Keep(result, block); }
        case _ =>
          result := Keep(result, block);
      }
      assert Produced(result, input, i + 1) == before + step;
    }
    match result {
      case None => content, changed := input, false;
      case Some(blocks) => content, changed := blocks, true;
    }
    assert Produced(result, input, |input|) == content;
  }

  // The three ways a block enters the copy-on-write result.
  function Keep(result: Option<seq<Block>>, block: Block): (r: Option<seq<Block>>) {
    if result.Some? then Some(result.value + [block]) else None
  }

  function Append(result: Option<seq<Block>>, content: seq<Block>, i: nat, block: Block): (r: Option<seq<Block>>)
    requires i <= |content|
  {
    Some(Produced(result, content, i) + [block])
  }

  function Drop(result: Option<seq<Block>>, content: seq<Block>, i: nat): (r: Option<seq<Block>>)
    requires i <= |content|
  {
    Some(Produced(result, content, i))
  }

  // ---- first pass: one message at a time ------------------------------------

  function RewriteMessage(m: Message, model: Model, normalize: Option<Normalizer>, ids: map<string, string>): Message {
    match m.role
    case User =>
      if model.supportsImages then m
      else m.(content := WithoutImages(m.content, USER_IMAGE_PLACEHOLDER, false))
    case ToolResult =>
      var renamed := if m.toolCallID in ids then m.(toolCallID := ids[m.toolCallID]) else m;
      if model.supportsImages then renamed
      else renamed.(content := WithoutImages(m.content, TOOL_IMAGE_PLACEHOLDER, false))
    case Assistant => m.(content := RewriteContent(m.content, m, model, normalize))
    case OtherRole(_) => m
  }

  function RenamesAfter(m: Message, model: Model, normalize: Option<Normalizer>,
                        ids: map<string, string>): map<string, string>
  {
    if m.role.Assistant? then RecordRenames(m.content, m, model, normalize, ids) else ids
  }

  function Rewrite(ms: seq<Message>, model: Model, normalize: Option<Normalizer>,
                   ids: map<string, string>): (out: seq<Message>)
    ensures |out| == |ms|
  {
    if ms == [] then []
    else [RewriteMessage(ms[0], model, normalize, ids)]
         + Rewrite(ms[1..], model, normalize, RenamesAfter(ms[0], model, normalize, ids))
  }

  // ---- second pass: synthetic results -----------------------------------------

  /** The result written for a call that was never answered. */
  function SyntheticResult(call: Block, now: int): Message
    requires call.ToolCall?
  {
    Message(ToolResult, [Text(NO_RESULT, "")], now, "", "", "", "", Unset, "", call.id, call.name, true, "")
  }

  /** The synthetic results owed when a reply is left: one for each pending call
      whose id has not been answered, in call order. */
  function Flush(pending: seq<Block>, answered: set<string>, now: int): (out: seq<Message>)
    requires forall c <- pending :: c.ToolCall?
  {
    if pending == [] then []
    else (if pending[0].id in answered then [] else [SyntheticResult(pending[0], now)])
         + Flush(pending[1..], answered, now)
  }

  function Repair(ms: seq<Message>, pending: seq<Block>, answered: set<string>, now: int): seq<Message>
    requires forall c <- pending :: c.ToolCall?
    decreases |ms|
  {
    if ms == [] then Flush(pending, answered, now)
    else
      var m, rest := ms[0], ms[1..];
      match m.role
      case Assistant =>
        if Failed(m) then Flush(pending, answered, now) + Repair(rest, [], {}, now)
        else Flush(pending, answered, now) + [m] + Repair(rest, ToolCalls(m.content), {}, now)
      case ToolResult => [m] + Repair(rest, pending, answered + {m.toolCallID}, now)
      case User => Flush(pending, answered, now) + [m] + Repair(rest, [], {}, now)
      case OtherRole(_) => [m] + Repair(rest, pending, answered, now)
  }

  /** The variables that the repair loop and its closure share. */
  class ToolResultRepair {
    var result: seq<Message>
    var pending: seq<Block>
    var answered: set<string>
    const now: int

    ghost predicate Valid() reads this { forall c <- pending :: c.ToolCall? }

    constructor (now: int)
      ensures Valid() && result == [] && pending == [] && answered == {} && this.now == now
    {
      result, pending, answered, this.now := [], [], {}, now;
    }

    method InsertSynthetic()
      requires Valid()
      modifies this
      ensures Valid() && pending == [] && answered == {}
      ensures result == old(result) + Flush(old(pending), old(answered), now)
    {
      for k := 0 to |pending|
        invariant pending == old(pending) && answered == old(answered)
        invariant result + Flush(pending[k..], answered, now) == old(result) + Flush(pending, answered, now)
      {
        var toolCall := pending[k];
        assert pending[k..][1..] == pending[k + 1..];
        if toolCall.id !in answered {
          ghost var rest := Flush(pending[k + 1..], answered, now);
          assert result + ([SyntheticResult(toolCall, now)] + rest)
              == (result + [SyntheticResult(toolCall, now)]) + rest;
          result := result + [SyntheticResult(toolCall, now)];
        }
      }
      pending, answered := [], {};
    }

    method Process(m: Message)
      requires Valid()
      modifies this
      ensures Valid()
      ensures forall rest :: result + Repair(rest, pending, answered, now)
                          == old(result) + Repair([m] + rest, old(pending), old(answered), now)
    {
      match m.role {
        case Assistant =>
          InsertSynthetic();
          if !Failed(m) {
            pending := ToolCalls(m.content);
            result := result + [m];
          }
        case ToolResult =>
          answered := answered + {m.toolCallID};
          result := result + [m];
        case User =>
          InsertSynthetic();
          result := result + [m];
        case OtherRole(_) =>
          result := result + [m];
      }
      forall rest
        ensures result + Repair(rest, pending, answered, now)
             == old(result) + Repair([m] + rest, old(pending), old(answered), now)
      {
        RepairFirst(old(result), m, rest, old(pending), old(answered), now);
      }
    }
  }

  /** What the repair of a transcript emits for its first message. */
  lemma RepairFirst(done: seq<Message>, m: Message, rest: seq<Message>, pending: seq<Block>, answered: set<string>,
                    now: int)
    requires forall c <- pending :: c.ToolCall?
    ensures done + Repair([m] + rest, pending, answered, now) ==
            match m.role
            case Assistant =>
              if Failed(m) then done + Flush(pending, answered, now) + Repair(rest, [], {}, now)
              else done + Flush(pending, answered, now) + [m] + Repair(rest, ToolCalls(m.content), {}, now)
            case ToolResult => done + [m] + Repair(rest, pending, answered + {m.toolCallID}, now)
            case User => done + Flush(pending, answered, now) + [m] + Repair(rest, [], {}, now)
            case OtherRole(_) => done + [m] + Repair(rest, pending, answered, now)
  {
    assert ([m] + rest)[1..] == rest;
  }

  method InsertSyntheticToolResults(messages: seq<Message>, now: int) returns (result: seq<Message>)
    ensures result == Repair(messages, [], {}, now)
  {
    var repair := new ToolResultRepair(now);
    for i := 0 to |messages|
      invariant repair.Valid() && repair.now == now && fresh(repair)
      invariant repair.result + Repair(messages[i..], repair.pending, repair.answered, now)
             == Repair(messages, [], {}, now)
    {
      assert messages[i..] == [messages[i]] + messages[i + 1..];
      repair.Process(messages[i]);
    }
    repair.InsertSynthetic();
    return repair.result;
  }

  function Transformed(ms: seq<Message>, model: Model, normalize: Option<Normalizer>, now: int): seq<Message> {
    Repair(Rewrite(ms, model, normalize, map[]), [], {}, now)
  }

  method TransformMessages(messages: seq<Message>, model: Model, normalize: Option<Normalizer>, now: int)
    returns (result: seq<Message>)
    ensures result == Transformed(messages, model, normalize, now)
  {
    var ids: map<string, string> := map[];
    var transformed: seq<Message> := [];
    for i := 0 to |messages|
      invariant transformed + Rewrite(messages[i..], model, normalize, ids)
        == Rewrite(messages, model, normalize, map[])
    {
      var m := messages[i];
      assert messages[i..][1..] == messages[i + 1..];
      ghost var expected := RewriteMessage(m, model, normalize, ids);
      ghost var rest := Rewrite(messages[i + 1..], model, normalize, RenamesAfter(m, model, normalize, ids));
      assert transformed + ([expected] + rest) == (transformed + [expected]) + rest;
      match m.role {
        case User =>
          if !model.supportsImages {
            var content, changed := ReplaceImagesWithPlaceholder(m.content, USER_IMAGE_PLACEHOLDER);
            if changed {
              m := m.(content := content);
            } else {
              NoImagesNoChange(m.content, USER_IMAGE_PLACEHOLDER, false);
            }
          }
        case ToolResult =>
          if m.toolCallID in ids && ids[m.toolCallID] != m.toolCallID {
            m := m.(toolCallID := ids[m.toolCallID]);
          }
          if !model.supportsImages {
            var content, changed := ReplaceImagesWithPlaceholder(m.content, TOOL_IMAGE_PLACEHOLDER);
            if changed {
              m := m.(content := content);
            } else {
              NoImagesNoChange(m.content, TOOL_IMAGE_PLACEHOLDER, false);
            }
          }
        case Assistant =>
          var isSameModel := m.provider == model.provider && m.api == model.api && m.model == model.id;
          var content, changed, renames := TransformAssistantContent(m, model, isSameModel, normalize, ids);
          ids := renames;
          if changed { m := m.(content := content); }
        case OtherRole(_) =>
      }
      assert m == expected;
      transformed := transformed + [m];
    }
    assert transformed == Rewrite(messages, model, normalize, map[]);
    result := InsertSyntheticToolResults(transformed, now);
  }

  lemma {:induction false} NoImagesNoChange(content: seq<Block>, placeholder: string, after: bool)
    requires !HasImages(content)
    ensures WithoutImages(content, placeholder, after) == content
  {
    if content != [] {
      assert forall k | 0 <= k < |content[1..]| :: content[1..][k] == content[k + 1];
      NoImagesNoChange(content[1..], placeholder, LeavesPlaceholder(content[0], placeholder));
    }
  }
}
