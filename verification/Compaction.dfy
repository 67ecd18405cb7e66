/** Compaction: where a branch may be cut under a token budget, what is summarised,
    and what the rebuilt context keeps. */
module Compaction {
  import opened Messages
  import opened AgentMessages

  // ---- entries -----------------------------------------------------------------------

  datatype Kind =
    | MessageEntry(message: Option<AgentMessage>)
    | CustomEntry(content: Option<seq<Block>>, timestamp: int)
    | BranchSummaryEntry(summary: string, timestamp: int)
    | CompactionEntry(text: string, firstKeptEntryID: string, timestamp: int)
    | Metadata

  datatype Entry = Entry(id: string, kind: Kind)

  function MessageFromEntry(e: Entry): Option<AgentMessage> {
    match e.kind
    case MessageEntry(m) => m
    case CustomEntry(content, ts) => Some(AgentMessage.Custom(content, ts))
    case BranchSummaryEntry(summary, ts) => Some(AgentMessage.BranchSummary(summary, ts))
    case _ => None
  }

  function MessagesOf(entries: seq<Entry>): seq<AgentMessage> {
    if entries == [] then []
    else MessagesOf(entries[..|entries| - 1])
         + (var m := MessageFromEntry(entries[|entries| - 1]); if m.Some? then [m.value] else [])
  }

  // ---- token estimates ----------------------------------------------------------------

  function CharsToTokens(chars: nat): nat {
    (chars + 3) / 4
  }

  /** The bytes of a string in UTF-8. */
  function Bytes(s: string): nat {
    if s == "" then 0
    else (if s[0] < '\U{80}' then 1 else if s[0] < '\U{800}' then 2 else if s[0] < '\U{10000}' then 3 else 4)
         + Bytes(s[1..])
  }

  /** The bytes a block counts for, by the role of its message. */
  function BlockChars(b: Block, role: Role): nat {
    match (role, b)
    case (Assistant, Text(text, _)) => Bytes(text)
    case (Assistant, Thinking(thinking, _, _)) => Bytes(thinking)
    case (Assistant, ToolCall(_, name, arguments, _)) => Bytes(name) + Bytes(arguments)
    case (User, Text(text, _)) => Bytes(text)
    case (ToolResult, Text(text, _)) => Bytes(text)
    case (ToolResult, Image(_, _)) => 4800
    case (OtherRole(_), Text(text, _)) => Bytes(text)
    case (OtherRole(_), Image(_, _)) => 4800
    case _ => 0
  }

  function ContentChars(content: seq<Block>, role: Role): nat {
    if content == [] then 0 else ContentChars(content[..|content| - 1], role) + BlockChars(content[|content| - 1], role)
  }

  function MessageTokens(m: Message): nat {
    CharsToTokens(ContentChars(m.content, m.role))
  }

  method EstimateAIMessageTokens(m: Message) returns (tokens: nat)
    ensures tokens == MessageTokens(m)
  {
    var chars: nat := 0;
    for i := 0 to |m.content|
      invariant chars == ContentChars(m.content[..i], m.role)
    {
      assert m.content[..i + 1][..i] == m.content[..i];
      chars := chars + BlockChars(m.content[i], m.role);
    }
    assert m.content[..|m.content|] == m.content;
    tokens := CharsToTokens(chars);
  }

  /** Only provider messages count towards the budget. */
  predicate Counts(e: Entry) {
    e.kind.MessageEntry? && e.kind.message.Some? && e.kind.message.value.LLM?
  }

  function EntryTokens(e: Entry): nat {
    if Counts(e) then MessageTokens(e.kind.message.value.message) else 0
  }

  /** The tokens of the entries from `i` up to `end`. */
  function TailTokens(entries: seq<Entry>, i: nat, end: nat): nat
    requires i <= end <= |entries|
    decreases end - i
  {
    if i == end then 0 else EntryTokens(entries[i]) + TailTokens(entries, i + 1, end)
  }

  // ---- where a branch may be cut ---------------------------------------------------------

  predicate ValidMessageCut(m: Option<AgentMessage>) {
    m.Some? && (if m.value.LLM? then !m.value.message.role.ToolResult? else !m.value.Raw?)
  }

  predicate ValidCut(e: Entry) {
    match e.kind
    case MessageEntry(m) => ValidMessageCut(m)
    case CustomEntry(_, _) => true
    case BranchSummaryEntry(_, _) => true
    case _ => false
  }

  predicate IsUserEntry(e: Entry) {
    e.kind.MessageEntry? && e.kind.message.Some? && e.kind.message.value.LLM? && e.kind.message.value.message.role.User?
  }

  predicate StartsTurn(e: Entry) {
    e.kind.BranchSummaryEntry? || e.kind.CustomEntry? || IsUserEntry(e)
    || (e.kind.MessageEntry? && e.kind.message.Some? && e.kind.message.value.Bash?)
  }

  /** The valid cut points from `i`, in order. */
  function CutPoints(entries: seq<Entry>, i: nat, end: nat): seq<nat>
    requires i <= end <= |entries|
    decreases end - i
  {
    if i == end then []
    else if ValidCut(entries[i]) then [i] + CutPoints(entries, i + 1, end)
    else CutPoints(entries, i + 1, end)
  }

  method FindValidCutPoints(entries: seq<Entry>, startIndex: nat, endIndex: nat) returns (cutPoints: seq<nat>)
    requires startIndex <= endIndex <= |entries|
    ensures cutPoints == CutPoints(entries, startIndex, endIndex)
  {
    cutPoints := [];
    for i := startIndex to endIndex
      invariant cutPoints + CutPoints(entries, i, endIndex) == CutPoints(entries, startIndex, endIndex)
    {
      if ValidCut(entries[i]) {
        assert cutPoints + ([i] + CutPoints(entries, i + 1, endIndex))
            == cutPoints + [i] + CutPoints(entries, i + 1, endIndex);
        cutPoints := cutPoints + [i];
      }
    }
  }

  /** The first valid cut point at or after `i`. */
  function FirstCutFrom(entries: seq<Entry>, i: nat, end: nat): (c: Option<nat>)
    requires i <= end <= |entries|
    ensures c.Some? ==> i <= c.value < end && ValidCut(entries[c.value])
    ensures forall k: nat | i <= k < (if c.Some? then c.value else end) :: !ValidCut(entries[k])
    decreases end - i
  {
    if i == end then None else if ValidCut(entries[i]) then Some(i) else FirstCutFrom(entries, i + 1, end)
  }

  ghost predicate AreCuts(entries: seq<Entry>, i: nat, end: nat, cuts: seq<nat>)
    requires end <= |entries|
  {
    && (forall j | 0 <= j < |cuts| :: i <= cuts[j] < end && ValidCut(entries[cuts[j]]))
    && (forall j, k | 0 <= j < k < |cuts| :: cuts[j] < cuts[k])
  }

  lemma CutInFront(entries: seq<Entry>, i: nat, end: nat, rest: seq<nat>)
    requires i < end <= |entries| && ValidCut(entries[i]) && AreCuts(entries, i + 1, end, rest)
    ensures AreCuts(entries, i, end, [i] + rest)
  {
  }

  lemma {:induction false} CutPointsAscend(entries: seq<Entry>, i: nat, end: nat)
    requires i <= end <= |entries|
    ensures AreCuts(entries, i, end, CutPoints(entries, i, end))
    decreases end - i
  {
    if i < end {
      CutPointsAscend(entries, i + 1, end);
      if ValidCut(entries[i]) { CutInFront(entries, i, end, CutPoints(entries, i + 1, end)); }
    }
  }

  lemma {:induction false} CutPointsMissNone(entries: seq<Entry>, i: nat, end: nat, c: nat)
    requires i <= c < end <= |entries| && ValidCut(entries[c])
    ensures c in CutPoints(entries, i, end)
    decreases end - i
  {
    if i < c { CutPointsMissNone(entries, i + 1, end, c); }
  }

  lemma {:induction false} FirstCutIsFirst(entries: seq<Entry>, i: nat, end: nat)
    requires i <= end <= |entries|
    ensures var cuts := CutPoints(entries, i, end);
            FirstCutFrom(entries, i, end) == if cuts == [] then None else Some(cuts[0])
    decreases end - i
  {
    if i < end { FirstCutIsFirst(entries, i + 1, end); }
  }

  lemma CutPointsAreTheValidOnes(entries: seq<Entry>, i: nat, end: nat)
    requires i <= end <= |entries|
    ensures var cuts := CutPoints(entries, i, end);
            && AreCuts(entries, i, end, cuts)
            && (forall c: nat | i <= c < end && ValidCut(entries[c]) :: c in cuts)
            && FirstCutFrom(entries, i, end) == if cuts == [] then None else Some(cuts[0])
  {
    CutPointsAscend(entries, i, end);
    FirstCutIsFirst(entries, i, end);
    forall c: nat | i <= c < end && ValidCut(entries[c]) ensures c in CutPoints(entries, i, end) {
      CutPointsMissNone(entries, i, end, c);
    }
  }

  /** The last index whose tail reaches the budget, among the entries that count. */
  function Threshold(entries: seq<Entry>, start: nat, i: nat, end: nat, keep: int): (t: Option<nat>)
    requires start <= i <= end <= |entries|
    ensures t.Some? ==> start <= t.value < i && Counts(entries[t.value]) && TailTokens(entries, t.value, end) >= keep
    ensures forall k: nat | (if t.Some? then t.value < k else start <= k) && k < i && Counts(entries[k]) ::
              TailTokens(entries, k, end) < keep
    decreases i
  {
    if i == start then None
    else if Counts(entries[i - 1]) && TailTokens(entries, i - 1, end) >= keep then Some(i - 1)
    else Threshold(entries, start, i - 1, end, keep)
  }

  /** The cut before it is moved back over what precedes it. */
  function BudgetCut(entries: seq<Entry>, start: nat, end: nat, keep: int): (c: nat)
    requires start <= end <= |entries| && FirstCutFrom(entries, start, end).Some?
    ensures start <= c < end && ValidCut(entries[c])
  {
    var t := Threshold(entries, start, end, end, keep);
    if t.Some? && FirstCutFrom(entries, t.value, end).Some? then FirstCutFrom(entries, t.value, end).value
    else FirstCutFrom(entries, start, end).value
  }

  predicate StopsWalk(e: Entry) {
    e.kind.CompactionEntry? || e.kind.MessageEntry?
  }

  /** The cut moved back to just after the nearest message or compaction. */
  function WalkBack(entries: seq<Entry>, start: nat, cut: nat): (c: nat)
    requires start <= cut < |entries|
    ensures start <= c <= cut
    ensures forall k | c <= k < cut :: !StopsWalk(entries[k])
    ensures c == start || StopsWalk(entries[c - 1])
    decreases cut
  {
    if cut == start || StopsWalk(entries[cut - 1]) then cut else WalkBack(entries, start, cut - 1)
  }

  /** The nearest turn start at or before `i`. */
  function TurnStart(entries: seq<Entry>, start: nat, i: nat): (t: Option<nat>)
    requires start <= i < |entries|
    ensures t.Some? ==> start <= t.value <= i && StartsTurn(entries[t.value])
    ensures forall k | (if t.Some? then t.value < k else start <= k) && k <= i :: !StartsTurn(entries[k])
    decreases i
  {
    if StartsTurn(entries[i]) then Some(i) else if i == start then None else TurnStart(entries, start, i - 1)
  }

  datatype Cut = Cut(firstKept: nat, turnStart: Option<nat>, isSplitTurn: bool)

  function CutPoint(entries: seq<Entry>, start: nat, end: nat, keep: int): (c: Cut)
    requires start < end <= |entries|
    ensures start <= c.firstKept < end
    ensures c.turnStart.Some? ==> start <= c.turnStart.value <= c.firstKept
    ensures c.isSplitTurn <==> c.turnStart.Some?
  {
    if FirstCutFrom(entries, start, end).None? then Cut(start, None, false)
    else
      var cut := WalkBack(entries, start, BudgetCut(entries, start, end, keep));
      var turnStart := if IsUserEntry(entries[cut]) then None else TurnStart(entries, start, cut);
      Cut(cut, turnStart, turnStart.Some?)
  }

  method FindTurnStartIndex(entries: seq<Entry>, entryIndex: nat, startIndex: nat) returns (t: Option<nat>)
    requires startIndex <= entryIndex < |entries|
    ensures t == TurnStart(entries, startIndex, entryIndex)
  {
    var i: int := entryIndex;
    while i >= startIndex
      invariant startIndex - 1 <= i <= entryIndex
      invariant if i < startIndex then TurnStart(entries, startIndex, entryIndex) == None
                else TurnStart(entries, startIndex, entryIndex) == TurnStart(entries, startIndex, i)
    {
      if StartsTurn(entries[i]) { return Some(i); }
      i := i - 1;
    }
    return None;
  }

  /** The walk back from the end until the budget is reached. */
  method FindBudgetCut(entries: seq<Entry>, startIndex: nat, endIndex: nat, keepRecentTokens: int, cutPoints: seq<nat>)
    returns (cutIndex: nat)
    requires startIndex < endIndex <= |entries|
    requires cutPoints == CutPoints(entries, startIndex, endIndex) && cutPoints != []
    ensures FirstCutFrom(entries, startIndex, endIndex).Some?
    ensures cutIndex == BudgetCut(entries, startIndex, endIndex, keepRecentTokens)
  {
    FirstCutIsFirst(entries, startIndex, endIndex);
    var accumulatedTokens := 0;
    cutIndex := cutPoints[0];
    var i: int := endIndex;
    while i > startIndex
      invariant startIndex <= i <= endIndex
      invariant accumulatedTokens == TailTokens(entries, i, endIndex) && cutIndex == cutPoints[0]
      invariant Threshold(entries, startIndex, endIndex, endIndex, keepRecentTokens)
             == Threshold(entries, startIndex, i, endIndex, keepRecentTokens)
    {
      i := i - 1;
      if Counts(entries[i]) {
        var tokens := EstimateAIMessageTokens(entries[i].kind.message.value.message);
        accumulatedTokens := accumulatedTokens + tokens;
        if accumulatedTokens >= keepRecentTokens {
          cutIndex := FirstAtOrAfter(entries, startIndex, endIndex, cutPoints, i);
          return;
        }
      }
    }
  }

  method FindCutPoint(entries: seq<Entry>, startIndex: nat, endIndex: nat, keepRecentTokens: int) returns (cut: Cut)
    requires startIndex < endIndex <= |entries|
    ensures cut == CutPoint(entries, startIndex, endIndex, keepRecentTokens)
  {
    var cutPoints := FindValidCutPoints(entries, startIndex, endIndex);
    FirstCutIsFirst(entries, startIndex, endIndex);
    if cutPoints == [] {
      return Cut(startIndex, None, false);
    }
    var cutIndex := FindBudgetCut(entries, startIndex, endIndex, keepRecentTokens, cutPoints);
    while cutIndex > startIndex && !StopsWalk(entries[cutIndex - 1])
      invariant startIndex <= cutIndex < endIndex
      invariant WalkBack(entries, startIndex, cutIndex)
             == WalkBack(entries, startIndex, BudgetCut(entries, startIndex, endIndex, keepRecentTokens))
    {
      cutIndex := cutIndex - 1;
    }
    var turnStart: Option<nat> := None;
    if !IsUserEntry(entries[cutIndex]) {
      turnStart := FindTurnStartIndex(entries, cutIndex, startIndex);
    }
    return Cut(cutIndex, turnStart, turnStart.Some?);
  }

  /** The scan of the cut points for the first one at or after `i`; the first of all
      when there is none. */
  method FirstAtOrAfter(entries: seq<Entry>, startIndex: nat, endIndex: nat, cutPoints: seq<nat>, i: nat)
    returns (c: nat)
    requires startIndex <= i < endIndex <= |entries|
    requires cutPoints == CutPoints(entries, startIndex, endIndex) && cutPoints != []
    ensures FirstCutFrom(entries, startIndex, endIndex).Some?
    ensures c == if FirstCutFrom(entries, i, endIndex).Some? then FirstCutFrom(entries, i, endIndex).value
                 else FirstCutFrom(entries, startIndex, endIndex).value
  {
    CutPointsAreTheValidOnes(entries, startIndex, endIndex);
    for k := 0 to |cutPoints|
      invariant forall j | 0 <= j < k :: cutPoints[j] < i
    {
      if cutPoints[k] >= i {
        ghost var first := FirstCutFrom(entries, i, endIndex);
        assert first.Some? ==> first.value in cutPoints;
        return cutPoints[k];
      }
    }
    return cutPoints[0];
  }

  // ---- what the cut guarantees --------------------------------------------------------------

  /** The message at `r` is the result of a call made by the reply at `a`. */
  predicate IsResultOf(entries: seq<Entry>, a: nat, r: nat) {
    && a < r < |entries| && Counts(entries[a]) && Counts(entries[r])
    && var reply, result := entries[a].kind.message.value.message, entries[r].kind.message.value.message;
    reply.role.Assistant? && result.role.ToolResult? && result.toolCallID in Calls(reply)
  }

  /** The cut falls between a call and its result exactly when the budget is reached
      at an entry between them with a valid cut point between it and the result. */
  lemma CutSeparatesExactlyWhen(entries: seq<Entry>, start: nat, end: nat, keep: int, a: nat, r: nat)
    requires start <= a && r < end <= |entries| && IsResultOf(entries, a, r)
    ensures
      var t := Threshold(entries, start, end, end, keep);
      a < CutPoint(entries, start, end, keep).firstKept <= r
      <==> (t.Some? && a < t.value < r && FirstCutFrom(entries, t.value, end).Some?
            && FirstCutFrom(entries, t.value, end).value < r)
  {
    var t := Threshold(entries, start, end, end, keep);
    var c := BudgetCut(entries, start, end, keep);
    var cut := WalkBack(entries, start, c);
    assert ValidCut(entries[a]) && StopsWalk(entries[a]) && StopsWalk(entries[r]) && !ValidCut(entries[r]);
    assert a < cut <= r <==> a < c < r;
    if t.Some? && FirstCutFrom(entries, t.value, end).Some? && t.value <= a {
      assert c <= a;
    }
  }

  /** So when only results and metadata stand between them, no budget separates them. */
  lemma CutKeepsCallWithResult(entries: seq<Entry>, start: nat, end: nat, keep: int, a: nat, r: nat)
    requires start <= a && r < end <= |entries| && IsResultOf(entries, a, r)
    requires forall k | a < k < r :: !ValidCut(entries[k])
    ensures !(a < CutPoint(entries, start, end, keep).firstKept <= r)
  {
    CutSeparatesExactlyWhen(entries, start, end, keep, a, r);
  }

  /** What is kept after the first kept message stays under the budget exactly when the budget
      is nowhere reached or a valid cut point lies at or after the index where it is. */
  lemma KeptTailFitsBudget(entries: seq<Entry>, start: nat, end: nat, keep: int) returns (first: nat)
    requires start < end <= |entries| && keep > 0 && FirstCutFrom(entries, start, end).Some?
    ensures CutPoint(entries, start, end, keep).firstKept <= first < end && ValidCut(entries[first])
    ensures forall k | CutPoint(entries, start, end, keep).firstKept <= k < first :: !StopsWalk(entries[k])
    ensures
      var t := Threshold(entries, start, end, end, keep);
      TailTokens(entries, first + 1, end) < keep <==> (t.None? || FirstCutFrom(entries, t.value, end).Some?)
  {
    var t := Threshold(entries, start, end, end, keep);
    first := BudgetCut(entries, start, end, keep);
    if t.None? {
      WholeUnderBudget(entries, first + 1, end, keep);
    } else if FirstCutFrom(entries, t.value, end).Some? {
      TailUnderBudget(entries, t.value, first + 1, end, keep);
    } else {
      TailShrinks(entries, first + 1, t.value, end);
    }
  }

  lemma {:induction false} TailShrinks(entries: seq<Entry>, i: nat, j: nat, end: nat)
    requires i <= j <= end <= |entries|
    ensures TailTokens(entries, j, end) <= TailTokens(entries, i, end)
    decreases j - i
  {
    if i < j { TailShrinks(entries, i + 1, j, end); }
  }

  lemma {:induction false} TailUnderBudget(entries: seq<Entry>, t: nat, i: nat, end: nat, keep: int)
    requires t < i <= end <= |entries| && keep > 0
    requires forall k: nat | t < k < end && Counts(entries[k]) :: TailTokens(entries, k, end) < keep
    ensures TailTokens(entries, i, end) < keep
    decreases end - i
  {
    if i < end && !Counts(entries[i]) { TailUnderBudget(entries, t, i + 1, end, keep); }
  }

  /** A branch under budget is cut at its first valid cut point. */
  lemma UnderBudgetKeepsAll(entries: seq<Entry>, start: nat, end: nat, keep: int)
    requires start <= end <= |entries| && FirstCutFrom(entries, start, end).Some?
    requires Threshold(entries, start, end, end, keep).None?
    ensures BudgetCut(entries, start, end, keep) == FirstCutFrom(entries, start, end).value
    ensures keep > 0 ==> TailTokens(entries, start, end) < keep
  {
    if keep > 0 { WholeUnderBudget(entries, start, end, keep); }
  }

  lemma {:induction false} WholeUnderBudget(entries: seq<Entry>, i: nat, end: nat, keep: int)
    requires i <= end <= |entries| && keep > 0
    requires forall k: nat | i <= k < end && Counts(entries[k]) :: TailTokens(entries, k, end) < keep
    ensures TailTokens(entries, i, end) < keep
    decreases end - i
  {
    if i < end && !Counts(entries[i]) { WholeUnderBudget(entries, i + 1, end, keep); }
  }

  // ---- preparing a compaction ------------------------------------------------------------------

  datatype Settings = Settings(enabled: bool, reserveTokens: int, keepRecentTokens: int)

  function WithDefaults(s: Settings): Settings {
    if s == Settings(false, 0, 0) then Settings(true, 16384, 20000) else s
  }

  datatype Preparation = Preparation(
    firstKeptEntryID: string,
    messagesToSummarize: seq<AgentMessage>,
    turnPrefixMessages: seq<AgentMessage>,
    isSplitTurn: bool,
    previousSummary: string)

  /** The last compaction of a branch. */
  function LastCompaction(branch: seq<Entry>): (c: Option<nat>)
    ensures c.Some? ==> c.value < |branch| && branch[c.value].kind.CompactionEntry?
    ensures forall k | (if c.Some? then c.value < k else 0 <= k) && k < |branch| :: !branch[k].kind.CompactionEntry?
  {
    if branch == [] then None
    else if branch[|branch| - 1].kind.CompactionEntry? then Some(|branch| - 1)
    else LastCompaction(branch[..|branch| - 1])
  }

  /** The first entry with the given id. */
  function FirstWithID(branch: seq<Entry>, id: string): (i: Option<nat>)
    ensures i.Some? ==> i.value < |branch| && branch[i.value].id == id
    ensures forall k | 0 <= k < (if i.Some? then i.value else |branch|) :: branch[k].id != id
  {
    if branch == [] then None
    else
      var before := FirstWithID(branch[..|branch| - 1], id);
      if before.Some? then before
      else if branch[|branch| - 1].id == id then Some(|branch| - 1) else None
  }

  /** Where the part not yet summarised begins. */
  function Boundary(branch: seq<Entry>): (b: nat)
    ensures b <= |branch|
  {
    var last := LastCompaction(branch);
    if last.None? then 0
    else
      var kept := FirstWithID(branch, branch[last.value].kind.firstKeptEntryID);
      if kept.Some? then kept.value else last.value + 1
  }

  function Prepared(branch: seq<Entry>, settings: Settings): Option<Preparation> {
    if branch == [] || branch[|branch| - 1].kind.CompactionEntry? || Boundary(branch) == |branch| then None
    else
      var boundary := Boundary(branch);
      var cut := CutPoint(branch, Boundary(branch), |branch|, WithDefaults(settings).keepRecentTokens);
      if branch[cut.firstKept].id == "" then None
      else
        var historyEnd := if cut.isSplitTurn then cut.turnStart.value else cut.firstKept;
        Some(Preparation(
          branch[cut.firstKept].id,
          MessagesOf(branch[boundary..historyEnd]),
          MessagesOf(branch[historyEnd..cut.firstKept]),
          cut.isSplitTurn,
          if LastCompaction(branch).Some? then branch[LastCompaction(branch).value].kind.text else ""))
  }

  method CollectMessages(branch: seq<Entry>, from: nat, to: nat) returns (messages: seq<AgentMessage>)
    requires from <= to <= |branch|
    ensures messages == MessagesOf(branch[from..to])
  {
    messages := [];
    for i := from to to
      invariant messages == MessagesOf(branch[from..i])
    {
      assert branch[from..i + 1][..i - from] == branch[from..i];
      var m := MessageFromEntry(branch[i]);
      if m.Some? {
        messages := messages + [m.value];
      }
    }
  }

  method PrepareCompaction(branch: seq<Entry>, settings: Settings) returns (prep: Option<Preparation>)
    ensures prep == Prepared(branch, settings)
  {
    if branch == [] || branch[|branch| - 1].kind.CompactionEntry? {
      return None;
    }
    var prevCompactionIndex: int := |branch| - 1;
    while prevCompactionIndex >= 0 && !branch[prevCompactionIndex].kind.CompactionEntry?
      invariant -1 <= prevCompactionIndex < |branch|
      invariant LastCompaction(branch) == LastCompaction(branch[..prevCompactionIndex + 1])
    {
      assert branch[..prevCompactionIndex + 1][..prevCompactionIndex] == branch[..prevCompactionIndex];
      prevCompactionIndex := prevCompactionIndex - 1;
    }
    var previousSummary, boundaryStart := "", 0;
    if prevCompactionIndex >= 0 {
      var id := branch[prevCompactionIndex].kind.firstKeptEntryID;
      previousSummary := branch[prevCompactionIndex].kind.text;
      var i := 0;
      while i < |branch| && branch[i].id != id
        invariant 0 <= i <= |branch|
        invariant forall k | 0 <= k < i :: branch[k].id != id
      {
        i := i + 1;
      }
      boundaryStart := if i < |branch| then i else prevCompactionIndex + 1;
    }
    assert boundaryStart == Boundary(branch);
    if boundaryStart == |branch| {
      return None;
    }
    var cut := FindCutPoint(branch, boundaryStart, |branch|, WithDefaults(settings).keepRecentTokens);
    if branch[cut.firstKept].id == "" {
      return None;
    }
    var historyEnd := if cut.isSplitTurn then cut.turnStart.value else cut.firstKept;
    var history := CollectMessages(branch, boundaryStart, historyEnd);
    var prefix: seq<AgentMessage> := [];
    if cut.isSplitTurn {
      prefix := CollectMessages(branch, cut.turnStart.value, cut.firstKept);
    }
    return Some(Preparation(branch[cut.firstKept].id, history, prefix, cut.isSplitTurn, previousSummary));
  }

  // ---- the rebuilt context ------------------------------------------------------------------------

  function RebuiltContext(branch: seq<Entry>): seq<AgentMessage> {
    var last := LastCompaction(branch);
    if last.None? then MessagesOf(branch)
    else
      var c := branch[last.value];
      var kept := FirstWithID(branch[..last.value], c.kind.firstKeptEntryID);
      [AgentMessage.CompactionSummary(c.kind.text, c.kind.timestamp)]
        + (if kept.Some? then MessagesOf(branch[kept.value..last.value]) else [])
        + MessagesOf(branch[last.value + 1..])
  }

  method LatestCompaction(branch: seq<Entry>) returns (index: Option<nat>)
    ensures index == LastCompaction(branch)
  {
    index := None;
    for i := 0 to |branch|
      invariant index == LastCompaction(branch[..i])
    {
      assert branch[..i + 1][..i] == branch[..i];
      if branch[i].kind.CompactionEntry? { index := Some(i); }
    }
    assert branch[..|branch|] == branch;
  }

  /** The messages from the entry with the given id on. */
  method MessagesFromID(entries: seq<Entry>, id: string) returns (messages: seq<AgentMessage>)
    ensures var kept := FirstWithID(entries, id);
            messages == if kept.Some? then MessagesOf(entries[kept.value..]) else []
  {
    ghost var kept := FirstWithID(entries, id);
    messages := [];
    var foundFirstKept := false;
    for i := 0 to |entries|
      invariant foundFirstKept <==> kept.Some? && kept.value < i
      invariant messages == if foundFirstKept then MessagesOf(entries[kept.value..i]) else []
    {
      if entries[i].id == id { foundFirstKept := true; }
      if foundFirstKept {
        assert entries[kept.value..i + 1][..i - kept.value] == entries[kept.value..i];
        var m := MessageFromEntry(entries[i]);
        if m.Some? { messages := messages + [m.value]; }
      }
    }
    if kept.Some? { assert entries[kept.value..|entries|] == entries[kept.value..]; }
  }

  method ContextMessages(branch: seq<Entry>) returns (messages: seq<AgentMessage>)
    ensures messages == RebuiltContext(branch)
  {
    var compactionIndex := LatestCompaction(branch);
    if compactionIndex.None? {
      messages := CollectMessages(branch, 0, |branch|);
      assert branch[0..|branch|] == branch;
      return;
    }
    var n := compactionIndex.value;
    var c := branch[n];
    var kept := MessagesFromID(branch[..n], c.kind.firstKeptEntryID);
    var rest := CollectMessages(branch, n + 1, |branch|);
    ghost var from := FirstWithID(branch[..n], c.kind.firstKeptEntryID);
    if from.Some? { assert branch[..n][from.value..] == branch[from.value..n]; }
    assert branch[n + 1..|branch|] == branch[n + 1..];
    messages := [AgentMessage.CompactionSummary(c.kind.text, c.kind.timestamp)] + kept + rest;
  }

  // ---- runs of appends and compactions ------------------------------------------------------------

  datatype Op =
    | Append(entry: Entry)
    | Compact(settings: Settings, id: string, summary: string, timestamp: int)

  /** A branch, everything that was ever summarised of it, in order, and what of that its
      latest summary can tell. */
  datatype History = History(branch: seq<Entry>, summarised: seq<AgentMessage>, covered: seq<AgentMessage>)

  /** What a summary is made from: the earlier summary and the history, or, in a split turn,
      these and the prefix of the turn; without a history the earlier summary is left out. */
  function Covered(prep: Preparation, earlier: seq<AgentMessage>): seq<AgentMessage> {
    var passedOn := if prep.previousSummary != "" then earlier else [];
    if prep.isSplitTurn && prep.turnPrefixMessages != [] then
      (if prep.messagesToSummarize != [] then passedOn + prep.messagesToSummarize else []) + prep.turnPrefixMessages
    else passedOn + prep.messagesToSummarize
  }

  const EMPTY_HISTORY := History([], [], [])

  ghost predicate UniqueIDs(branch: seq<Entry>) {
    forall i, j | 0 <= i < j < |branch| :: branch[i].id != branch[j].id
  }

  ghost predicate Fresh(branch: seq<Entry>, id: string) {
    forall e <- branch :: e.id != id
  }

  ghost predicate Possible(h: History, op: Op) {
    match op
    case Append(e) => !e.kind.CompactionEntry? && Fresh(h.branch, e.id)
    case Compact(_, id, _, _) => Fresh(h.branch, id)
  }

  function Apply(h: History, op: Op): History {
    match op
    case Append(e) => h.(branch := h.branch + [e])
    case Compact(settings, id, summary, timestamp) =>
      var prep := Prepared(h.branch, settings);
      if prep.None? then h
      else History(h.branch + [Entry(id, CompactionEntry(summary, prep.value.firstKeptEntryID, timestamp))],
                   h.summarised + prep.value.messagesToSummarize + prep.value.turnPrefixMessages,
                   Covered(prep.value, h.covered))
  }

  /** The latest compaction names an entry before itself. */
  ghost predicate Anchored(branch: seq<Entry>) {
    var last := LastCompaction(branch);
    last.Some? ==>
      var kept := FirstWithID(branch, branch[last.value].kind.firstKeptEntryID);
      kept.Some? && kept.value < last.value
  }

  ghost predicate Consistent(h: History) {
    && UniqueIDs(h.branch) && Anchored(h.branch)
    && h.summarised == MessagesOf(h.branch[..Boundary(h.branch)])
  }

  lemma {:induction false} MessagesConcat(a: seq<Entry>, b: seq<Entry>)
    ensures MessagesOf(a + b) == MessagesOf(a) + MessagesOf(b)
  {
    if b == [] {
      assert a + b == a;
    } else {
      assert (a + b)[..|a + b| - 1] == a + b[..|b| - 1];
      MessagesConcat(a, b[..|b| - 1]);
    }
  }

  lemma SplitMessages(branch: seq<Entry>, i: nat, j: nat)
    requires i <= j <= |branch|
    ensures MessagesOf(branch[..j]) == MessagesOf(branch[..i]) + MessagesOf(branch[i..j])
  {
    assert branch[..j] == branch[..i] + branch[i..j];
    MessagesConcat(branch[..i], branch[i..j]);
  }

  function Tail(branch: seq<Entry>): seq<AgentMessage> {
    MessagesOf(branch[Boundary(branch)..])
  }

  /** Every message of the branch was summarised once or is still in the part that
      the context is rebuilt from, never both, and in order. */
  lemma NothingLostNothingTwice(h: History)
    requires Consistent(h)
    ensures h.summarised + Tail(h.branch) == MessagesOf(h.branch)
  {
    var b, branch := Boundary(h.branch), h.branch;
    SplitMessages(branch, b, |branch|);
    assert branch[..|branch|] == branch && branch[b..|branch|] == branch[b..];
  }

  /** The messages around an entry that has none. */
  lemma MessagesAround(branch: seq<Entry>, b: nat, n: nat)
    requires b <= n < |branch| && MessageFromEntry(branch[n]).None?
    ensures MessagesOf(branch[b..]) == MessagesOf(branch[b..n]) + MessagesOf(branch[n + 1..])
  {
    assert branch[b..] == branch[b..n] + ([branch[n]] + branch[n + 1..]);
    MessagesConcat(branch[b..n], [branch[n]] + branch[n + 1..]);
    MessagesConcat([branch[n]], branch[n + 1..]);
    assert MessagesOf([branch[n]]) == [];
  }

  /** The rebuilt context is the latest summary followed by the messages from the first
      kept entry on. */
  lemma ContextIsSummaryThenTail(branch: seq<Entry>)
    requires Anchored(branch)
    ensures RebuiltContext(branch) ==
            var last := LastCompaction(branch);
            if last.None? then Tail(branch)
            else [AgentMessage.CompactionSummary(branch[last.value].kind.text, branch[last.value].kind.timestamp)]
                 + Tail(branch)
  {
    var last, b := LastCompaction(branch), Boundary(branch);
    if last.None? {
      assert branch[0..] == branch;
    } else {
      var n := last.value;
      FirstInPrefix(branch, n, branch[n].kind.firstKeptEntryID);
      MessagesAround(branch, b, n);
      var summary := [AgentMessage.CompactionSummary(branch[n].kind.text, branch[n].kind.timestamp)];
      assert summary + MessagesOf(branch[b..n]) + MessagesOf(branch[n + 1..]) == summary + Tail(branch);
    }
  }

  lemma FirstInPrefix(branch: seq<Entry>, n: nat, id: string)
    requires n <= |branch| && FirstWithID(branch, id).Some? && FirstWithID(branch, id).value < n
    ensures FirstWithID(branch[..n], id) == FirstWithID(branch, id)
  {
  }

  lemma FirstInExtension(branch: seq<Entry>, e: Entry, id: string)
    requires FirstWithID(branch, id).Some?
    ensures FirstWithID(branch + [e], id) == FirstWithID(branch, id)
  {
    assert (branch + [e])[..|branch|] == branch;
  }

  lemma AppendKeepsConsistent(h: History, e: Entry)
    requires Consistent(h) && Possible(h, Append(e))
    ensures Consistent(Apply(h, Append(e))) && Boundary(Apply(h, Append(e)).branch) == Boundary(h.branch)
  {
    var branch, next := h.branch, h.branch + [e];
    assert next[..|branch|] == branch;
    var last := LastCompaction(branch);
    assert LastCompaction(next) == last;
    if last.Some? { FirstInExtension(branch, e, branch[last.value].kind.firstKeptEntryID); }
    assert next[..Boundary(next)] == branch[..Boundary(branch)];
  }

  /** A compaction appended behind a branch makes the entry it names the new boundary. */
  lemma CompactionSetsBoundary(branch: seq<Entry>, k: nat, c: Entry)
    requires UniqueIDs(branch) && k < |branch| && Fresh(branch, c.id)
    requires c.kind.CompactionEntry? && c.kind.firstKeptEntryID == branch[k].id
    ensures UniqueIDs(branch + [c]) && Anchored(branch + [c]) && Boundary(branch + [c]) == k
  {
    var next := branch + [c];
    assert LastCompaction(next) == Some(|branch|);
    assert FirstWithID(branch, branch[k].id) == Some(k);
    FirstInExtension(branch, c, branch[k].id);
  }

  lemma SliceSplits(branch: seq<Entry>, i: nat, j: nat, k: nat)
    requires i <= j <= k <= |branch|
    ensures MessagesOf(branch[i..j]) + MessagesOf(branch[j..k]) == MessagesOf(branch[i..k])
  {
    assert branch[i..k] == branch[i..j] + branch[j..k];
    MessagesConcat(branch[i..j], branch[j..k]);
  }

  /** What one compaction summarises is exactly what lies between the old boundary and
      the first kept entry. */
  lemma SummarisesUpToFirstKept(branch: seq<Entry>, settings: Settings) returns (k: nat)
    requires Prepared(branch, settings).Some?
    ensures var prep := Prepared(branch, settings).value;
            && Boundary(branch) <= k < |branch| && branch[k].id == prep.firstKeptEntryID
            && prep.messagesToSummarize + prep.turnPrefixMessages == MessagesOf(branch[Boundary(branch)..k])
  {
    var cut := CutPoint(branch, Boundary(branch), |branch|, WithDefaults(settings).keepRecentTokens);
    k := cut.firstKept;
    SliceSplits(branch, Boundary(branch), if cut.isSplitTurn then cut.turnStart.value else k, k);
  }

  lemma CompactKeepsConsistent(h: History, settings: Settings, id: string, summary: string, timestamp: int)
    requires Consistent(h) && Possible(h, Compact(settings, id, summary, timestamp))
    ensures var next := Apply(h, Compact(settings, id, summary, timestamp));
            Consistent(next) && Boundary(h.branch) <= Boundary(next.branch)
  {
    var prep := Prepared(h.branch, settings);
    if prep.Some? {
      var branch, b := h.branch, Boundary(h.branch);
      var k := SummarisesUpToFirstKept(branch, settings);
      var c := Entry(id, CompactionEntry(summary, prep.value.firstKeptEntryID, timestamp));
      CompactionSetsBoundary(branch, k, c);
      SplitMessages(branch, b, k);
      assert (branch + [c])[..k] == branch[..k];
      Regroup(MessagesOf(branch[..b]), prep.value.messagesToSummarize, prep.value.turnPrefixMessages);
    }
  }

  lemma Regroup(a: seq<AgentMessage>, b: seq<AgentMessage>, c: seq<AgentMessage>)
    ensures a + b + c == a + (b + c)
  {
  }

  ghost predicate AllPossible(h: History, ops: seq<Op>)
    decreases |ops|
  {
    ops == [] || (Possible(h, ops[0]) && AllPossible(Apply(h, ops[0]), ops[1..]))
  }

  function ApplyAll(h: History, ops: seq<Op>): History
    decreases |ops|
  {
    if ops == [] then h else ApplyAll(Apply(h, ops[0]), ops[1..])
  }

  /** Over any interleaving of appends and compactions the accounts stay balanced
      and the first kept entry never moves backwards. */
  lemma {:induction false} RunsKeepAccounts(h: History, ops: seq<Op>)
    requires Consistent(h) && AllPossible(h, ops)
    ensures Consistent(ApplyAll(h, ops)) && Boundary(h.branch) <= Boundary(ApplyAll(h, ops).branch)
    decreases |ops|
  {
    if ops != [] {
      match ops[0] {
        case Append(e) => AppendKeepsConsistent(h, e);
        case Compact(settings, id, summary, timestamp) => CompactKeepsConsistent(h, settings, id, summary, timestamp);
      }
      RunsKeepAccounts(Apply(h, ops[0]), ops[1..]);
    }
  }

  /** From an empty branch: after any run, what was summarised followed by what the
      context still shows behind its summary is the whole conversation, in order. */
  lemma EveryRunConserves(ops: seq<Op>)
    requires AllPossible(EMPTY_HISTORY, ops)
    ensures var h := ApplyAll(EMPTY_HISTORY, ops);
            var last := LastCompaction(h.branch);
            && h.summarised + Tail(h.branch) == MessagesOf(h.branch)
            && RebuiltContext(h.branch) ==
               if last.None? then Tail(h.branch)
               else [AgentMessage.CompactionSummary(h.branch[last.value].kind.text,
                                                    h.branch[last.value].kind.timestamp)]
                    + Tail(h.branch)
  {
    RunsKeepAccounts(EMPTY_HISTORY, ops);
    NothingLostNothingTwice(ApplyAll(EMPTY_HISTORY, ops));
    ContextIsSummaryThenTail(ApplyAll(EMPTY_HISTORY, ops).branch);
  }

  // ---- what the latest summary covers --------------------------------------------------------------

  /** The compaction leaves an earlier summary out: that summary is empty, or a turn is split
      that begins at the boundary. */
  predicate Forgets(h: History, op: Op) {
    op.Compact? && h.summarised != []
    && var prep := Prepared(h.branch, op.settings);
       prep.Some?
       && (prep.value.previousSummary == ""
           || (prep.value.isSplitTurn && prep.value.turnPrefixMessages != [] && prep.value.messagesToSummarize == []))
  }

  predicate EverForgets(h: History, ops: seq<Op>)
    decreases |ops|
  {
    ops != [] && (Forgets(h, ops[0]) || EverForgets(Apply(h, ops[0]), ops[1..]))
  }

  ghost predicate EndsWith(all: seq<AgentMessage>, last: seq<AgentMessage>) {
    |last| <= |all| && all[|all| - |last|..] == last
  }

  /** One step keeps the covered messages the last of the summarised ones, and keeps them
      all exactly when it forgets nothing. */
  lemma StepCovers(h: History, op: Op)
    requires EndsWith(h.summarised, h.covered)
    ensures EndsWith(Apply(h, op).summarised, Apply(h, op).covered)
    ensures Apply(h, op).covered == Apply(h, op).summarised <==> h.covered == h.summarised && !Forgets(h, op)
  {
    if op.Compact? && Prepared(h.branch, op.settings).Some? {
      CoverGrows(h.summarised, h.covered, Prepared(h.branch, op.settings).value);
    }
  }

  lemma CoverGrows(all: seq<AgentMessage>, last: seq<AgentMessage>, prep: Preparation)
    requires EndsWith(all, last) && (prep.isSplitTurn || prep.turnPrefixMessages == [])
    ensures
      var next := all + prep.messagesToSummarize + prep.turnPrefixMessages;
      var cover := Covered(prep, last);
      && EndsWith(next, cover)
      && (cover == next <==>
            last == all && (all == [] || (prep.previousSummary != ""
              && !(prep.isSplitTurn && prep.turnPrefixMessages != [] && prep.messagesToSummarize == []))))
  {
    var added := prep.messagesToSummarize + prep.turnPrefixMessages;
    var next, cover := all + prep.messagesToSummarize + prep.turnPrefixMessages, Covered(prep, last);
    var before := all[..|all| - |last|];
    assert all == before + last && next == before + last + added;
    if cover == last + added {
      assert next[|next| - |cover|..] == cover;
      if cover == next { assert before == []; }
    } else {
      assert |cover| <= |added| && added[|added| - |cover|..] == cover;
      assert next[|next| - |cover|..] == cover;
    }
  }

  /** Over any run the latest summary covers the last of what was summarised, and all of it
      exactly when no compaction left an earlier summary out. */
  lemma {:induction false} SummaryCoversAllExactlyWhen(h: History, ops: seq<Op>)
    requires EndsWith(h.summarised, h.covered)
    ensures var last := ApplyAll(h, ops);
            && EndsWith(last.summarised, last.covered)
            && (last.covered == last.summarised <==> h.covered == h.summarised && !EverForgets(h, ops))
    decreases |ops|
  {
    if ops != [] {
      StepCovers(h, ops[0]);
      SummaryCoversAllExactlyWhen(Apply(h, ops[0]), ops[1..]);
    }
  }

  function Said(id: string, role: Role): Entry {
    Entry(id, MessageEntry(Some(LLM(UserMessage([Text("x", "")], 0).(role := role)))))
  }

  lemma OneTokenEach(id: string, role: Role)
    requires role.User? || role.Assistant?
    ensures Counts(Said(id, role)) && EntryTokens(Said(id, role)) == 1 && ValidCut(Said(id, role))
  {
    var content := [Block.Text("x", "")];
    assert content[..0] == [] && ContentChars(content, role) == BlockChars(content[0], role);
  }

  /** When the last entry alone uses up the budget, the cut is there. */
  lemma CutsAtLast(branch: seq<Entry>, start: nat, id: string, role: Role)
    requires start < |branch| && (role.User? || role.Assistant?) && branch[|branch| - 1] == Said(id, role)
    requires |branch| >= 2 && StopsWalk(branch[|branch| - 2])
    ensures var cut := CutPoint(branch, start, |branch|, 1);
            && cut.firstKept == |branch| - 1
            && cut.turnStart == if role.User? then None else TurnStart(branch, start, |branch| - 1)
  {
    OneTokenEach(id, role);
    var n := |branch| - 1;
    assert TailTokens(branch, n, n + 1) == 1 + TailTokens(branch, n + 1, n + 1);
    assert Threshold(branch, start, n + 1, n + 1, 1) == Some(n);
    assert FirstCutFrom(branch, n, n + 1) == Some(n);
    assert ValidCut(branch[n]);
  }

  lemma FirstCompaction(one: Entry, two: Entry)
    requires one == Said("1", User) && two == Said("2", User)
    ensures Prepared([one, two], Settings(true, 0, 1)) == Some(Preparation("2", MessagesOf([one]), [], false, ""))
  {
    var branch := [one, two];
    CutsAtLast(branch, 0, "2", User);
    assert branch[..1] == [one] && LastCompaction(branch).None?;
    assert branch[0..1] == [one] && branch[1..1] == [];
  }

  lemma SecondCompaction(one: Entry, two: Entry, c: Entry, four: Entry)
    requires one == Said("1", User) && two == Said("2", User) && four == Said("4", Assistant)
    requires c == Entry("3", CompactionEntry("s", "2", 0))
    ensures var prep := Prepared([one, two, c, four], Settings(true, 0, 1));
            prep.Some? && prep.value.isSplitTurn && prep.value.messagesToSummarize == []
            && prep.value.turnPrefixMessages != []
  {
    var branch := [one, two, c, four];
    assert LastCompaction(branch) == Some(2);
    assert Boundary(branch) == 1 by {
      var k := FirstWithID(branch, "2");
      assert branch[1].id == "2" && branch[0].id != "2";
    }
    CutsAtLast(branch, 1, "4", Assistant);
    assert StartsTurn(branch[1]) && !StartsTurn(branch[2]) && !StartsTurn(branch[3]);
    assert TurnStart(branch, 1, 3) == Some(1);
    assert branch[1..1] == [] && branch[1..3] == [two] + [c];
    MessagesConcat([two], [c]);
    assert MessagesOf([two]) != [];
  }

  /** A compaction in the middle of the turn that the one before it kept forgets what that one
      had summarised. */
  lemma SplitTurnForgets()
    ensures
      var tiny := Settings(true, 0, 1);
      var ops := [Append(Said("1", User)), Append(Said("2", User)), Compact(tiny, "3", "s", 0),
                  Append(Said("4", Assistant)), Compact(tiny, "5", "t", 0)];
      && AllPossible(EMPTY_HISTORY, ops) && EverForgets(EMPTY_HISTORY, ops)
      && ApplyAll(EMPTY_HISTORY, ops).covered != ApplyAll(EMPTY_HISTORY, ops).summarised
  {
    hide Prepared;
    hide MessagesOf;
    hide Covered;
    var tiny := Settings(true, 0, 1);
    var one, two, four := Said("1", User), Said("2", User), Said("4", Assistant);
    var ops := [Append(one), Append(two), Compact(tiny, "3", "s", 0), Append(four), Compact(tiny, "5", "t", 0)];
    assert ops[1..][1..] == ops[2..] && ops[2..][1..] == ops[3..] && ops[3..][1..] == ops[4..];
    var h1 := Apply(EMPTY_HISTORY, ops[0]);
    var h2 := Apply(h1, ops[1]);
    assert h2.branch == [one, two];
    FirstCompaction(one, two);
    var h3 := Apply(h2, ops[2]);
    var c := Entry("3", CompactionEntry("s", "2", 0));
    assert h3.branch == [one, two, c];
    assert h3.summarised != [] by { assert MessagesOf([one]) != [] by { SaysSomething("1", User); } }
    var h4 := Apply(h3, ops[3]);
    assert h4.branch == [one, two, c, four];
    SecondCompaction(one, two, c, four);
    assert Forgets(h4, ops[4]);
    assert EverForgets(h4, ops[4..]) && AllPossible(h4, ops[4..]);
    assert EverForgets(h3, ops[3..]) && AllPossible(h3, ops[3..]);
    assert EverForgets(h2, ops[2..]) && AllPossible(h2, ops[2..]);
    assert EverForgets(h1, ops[1..]) && AllPossible(h1, ops[1..]);
    SummaryCoversAllExactlyWhen(EMPTY_HISTORY, ops);
  }

  lemma SaysSomething(id: string, role: Role)
    ensures MessagesOf([Said(id, role)]) != []
  {
  }
}
