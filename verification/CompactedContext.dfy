/** The context rebuilt from a compacted branch: when it can be delivered, given that the
    conversation the branch holds can. */
module CompactedContext {
  import opened Messages
  import opened Transcript
  import opened AgentMessages
  import opened Compaction

  /** The first message a provider would be sent of these is a tool result. */
  predicate StartsWithResult(ms: seq<AgentMessage>) {
    ProjectAll(ms) != [] && ProjectAll(ms)[0].role.ToolResult?
  }

  lemma {:induction false} NothingElseIsSent(ms: seq<AgentMessage>)
    ensures forall m <- ProjectAll(ms) :: !m.role.OtherRole?
  {
    if ms != [] { NothingElseIsSent(ms[..|ms| - 1]); }
  }

  /** The end of an orderly transcript stands alone exactly when it starts with no result. */
  lemma EndIsOrderlyExactlyWhen(before: seq<AgentMessage>, tail: seq<AgentMessage>)
    requires OrderlyContext(before + tail)
    ensures OrderlyContext(tail) <==> !StartsWithResult(tail)
  {
    ProjectConcat(before, tail);
    OrderlyConcat({}, ProjectAll(before), ProjectAll(tail));
    NothingElseIsSent(tail);
    if ProjectAll(tail) != [] { assert ProjectAll(tail)[0] in ProjectAll(tail); }
  }

  lemma BehindSummary(summary: string, timestamp: int, tail: seq<AgentMessage>)
    ensures OrderlyContext([AgentMessage.CompactionSummary(summary, timestamp)] + tail) <==> OrderlyContext(tail)
  {
    var s := AgentMessage.CompactionSummary(summary, timestamp);
    ProjectConcat([s], tail);
    assert [s][..0] == [] && ProjectAll([s]) == [] + Project(s);
    assert ([Project(s)[0]] + ProjectAll(tail))[1..] == ProjectAll(tail);
  }

  /** The context rebuilt from a branch with an orderly conversation is orderly exactly when
      the first message it shows from the first kept entry on is no result. */
  lemma RebuiltOrderlyExactlyWhen(branch: seq<Entry>)
    requires Anchored(branch) && OrderlyContext(MessagesOf(branch))
    ensures OrderlyContext(RebuiltContext(branch)) <==> !StartsWithResult(Tail(branch))
  {
    var last, b := LastCompaction(branch), Boundary(branch);
    ContextIsSummaryThenTail(branch);
    SplitMessages(branch, b, |branch|);
    assert branch[..|branch|] == branch && branch[b..|branch|] == branch[b..];
    EndIsOrderlyExactlyWhen(MessagesOf(branch[..b]), Tail(branch));
    if last.Some? {
      BehindSummary(branch[last.value].kind.text, branch[last.value].kind.timestamp, Tail(branch));
    }
  }

  /** So it is after any run of appends and compactions. */
  lemma RunRebuildsOrderlyExactlyWhen(ops: seq<Op>)
    requires AllPossible(EMPTY_HISTORY, ops)
    requires OrderlyContext(MessagesOf(ApplyAll(EMPTY_HISTORY, ops).branch))
    ensures var branch := ApplyAll(EMPTY_HISTORY, ops).branch;
            OrderlyContext(RebuiltContext(branch)) <==> !StartsWithResult(Tail(branch))
  {
    RunsKeepAccounts(EMPTY_HISTORY, ops);
    RebuiltOrderlyExactlyWhen(ApplyAll(EMPTY_HISTORY, ops).branch);
  }

  // ---- cuts that keep the context orderly ---------------------------------------------------------

  /** The entry has a message that a provider is sent. */
  predicate Shows(e: Entry) {
    var m := MessageFromEntry(e);
    m.Some? && Project(m.value) != []
  }

  predicate ShowsResult(e: Entry) {
    e.kind.MessageEntry? && e.kind.message.Some? && e.kind.message.value.LLM?
    && e.kind.message.value.message.role.ToolResult?
  }

  /** The first entry from `i` on that shows something. */
  function FirstShown(entries: seq<Entry>, i: nat): (k: Option<nat>)
    requires i <= |entries|
    ensures k.Some? ==> i <= k.value < |entries| && Shows(entries[k.value])
    ensures forall j | i <= j < (if k.Some? then k.value else |entries|) :: !Shows(entries[j])
    decreases |entries| - i
  {
    if i == |entries| then None else if Shows(entries[i]) then Some(i) else FirstShown(entries, i + 1)
  }

  lemma FirstMessage(entries: seq<Entry>, i: nat)
    requires i < |entries|
    ensures var m := MessageFromEntry(entries[i]);
            ProjectAll(MessagesOf(entries[i..]))
            == (if m.Some? then Project(m.value) else []) + ProjectAll(MessagesOf(entries[i + 1..]))
  {
    var e := entries[i];
    var m := MessageFromEntry(e);
    assert entries[i..] == [e] + entries[i + 1..];
    MessagesConcat([e], entries[i + 1..]);
    assert [e][..0] == [] && MessagesOf([]) == [];
    ProjectConcat(MessagesOf([e]), MessagesOf(entries[i + 1..]));
    if m.Some? {
      assert MessagesOf([e]) == [m.value] && [m.value][..0] == [];
      assert ProjectAll([m.value]) == [] + Project(m.value);
    }
  }

  lemma ShownFirst(e: Entry, rest: seq<Message>)
    requires Shows(e)
    ensures (Project(MessageFromEntry(e).value) + rest)[0].role.ToolResult? <==> ShowsResult(e)
  {
  }

  /** What the messages from `i` on start with is what the first entry shows that shows
      anything. */
  lemma {:induction false} StartsAsFirstShown(entries: seq<Entry>, i: nat)
    requires i <= |entries|
    ensures var k := FirstShown(entries, i);
            && (ProjectAll(MessagesOf(entries[i..])) != [] <==> k.Some?)
            && (StartsWithResult(MessagesOf(entries[i..])) <==> k.Some? && ShowsResult(entries[k.value]))
    decreases |entries| - i
  {
    if i == |entries| {
      assert entries[i..] == [];
    } else {
      hide ProjectAll, MessagesOf, Project;
      FirstMessage(entries, i);
      StartsAsFirstShown(entries, i + 1);
      var rest := ProjectAll(MessagesOf(entries[i + 1..]));
      if Shows(entries[i]) { ShownFirst(entries[i], rest); } else { assert [] + rest == rest; }
    }
  }

  /** A compaction finds a valid cut point, and the message there is sent to providers. */
  predicate CutIsShown(branch: seq<Entry>, settings: Settings) {
    var b, keep := Boundary(branch), WithDefaults(settings).keepRecentTokens;
    FirstCutFrom(branch, b, |branch|).Some? && Shows(branch[BudgetCut(branch, b, |branch|, keep)])
  }

  /** The context from the first kept entry on shows something, and no result first. */
  predicate Settled(branch: seq<Entry>) {
    LastCompaction(branch).Some? ==> ProjectAll(Tail(branch)) != [] && !StartsWithResult(Tail(branch))
  }

  lemma CutSettles(branch: seq<Entry>, settings: Settings, id: string, summary: string, timestamp: int)
    requires UniqueIDs(branch) && Fresh(branch, id) && Prepared(branch, settings).Some? && CutIsShown(branch, settings)
    ensures var prep := Prepared(branch, settings).value;
            Settled(branch + [Entry(id, CompactionEntry(summary, prep.firstKeptEntryID, timestamp))])
  {
    var b, keep := Boundary(branch), WithDefaults(settings).keepRecentTokens;
    var cut := BudgetCut(branch, b, |branch|, keep);
    var k := WalkBack(branch, b, cut);
    var c := Entry(id, CompactionEntry(summary, Prepared(branch, settings).value.firstKeptEntryID, timestamp));
    var next := branch + [c];
    CompactionSetsBoundary(branch, k, c);
    StartsAsFirstShown(next, k);
    assert next[cut] == branch[cut];
    var first := FirstShown(next, k).value;
    assert k <= first <= cut && next[first] == branch[first];
    assert first < cut ==> !StopsWalk(branch[first]);
  }

  lemma AppendStaysSettled(h: History, e: Entry)
    requires Consistent(h) && Possible(h, Append(e)) && Settled(h.branch)
    ensures Settled(h.branch + [e])
  {
    var b, next := Boundary(h.branch), h.branch + [e];
    AppendKeepsConsistent(h, e);
    assert next[..|h.branch|] == h.branch;
    assert LastCompaction(next) == LastCompaction(h.branch);
    assert next[b..] == h.branch[b..] + [e];
    MessagesConcat(h.branch[b..], [e]);
    ProjectConcat(Tail(h.branch), MessagesOf([e]));
  }

  /** Every compaction of a run cuts at a message that is shown. */
  predicate CutsAreShown(h: History, ops: seq<Op>)
    decreases |ops|
  {
    ops == [] ||
    (&& (ops[0].Compact? && Prepared(h.branch, ops[0].settings).Some? ==> CutIsShown(h.branch, ops[0].settings))
     && CutsAreShown(Apply(h, ops[0]), ops[1..]))
  }

  lemma {:induction false} RunStaysSettled(h: History, ops: seq<Op>)
    requires Consistent(h) && Settled(h.branch) && AllPossible(h, ops) && CutsAreShown(h, ops)
    ensures Consistent(ApplyAll(h, ops)) && Settled(ApplyAll(h, ops).branch)
    decreases |ops|
  {
    if ops != [] {
      match ops[0] {
        case Append(e) =>
          AppendKeepsConsistent(h, e);
          AppendStaysSettled(h, e);
        case Compact(settings, id, summary, timestamp) =>
          CompactKeepsConsistent(h, settings, id, summary, timestamp);
          if Prepared(h.branch, settings).Some? { CutSettles(h.branch, settings, id, summary, timestamp); }
      }
      RunStaysSettled(Apply(h, ops[0]), ops[1..]);
    }
  }

  /** When every compaction of a run cuts at a message that is shown, the rebuilt context of an
      orderly conversation is orderly, whatever the budgets. */
  lemma ShownCutsKeepOrder(ops: seq<Op>)
    requires AllPossible(EMPTY_HISTORY, ops) && CutsAreShown(EMPTY_HISTORY, ops)
    requires OrderlyContext(MessagesOf(ApplyAll(EMPTY_HISTORY, ops).branch))
    ensures OrderlyContext(RebuiltContext(ApplyAll(EMPTY_HISTORY, ops).branch))
  {
    var branch := ApplyAll(EMPTY_HISTORY, ops).branch;
    RunStaysSettled(EMPTY_HISTORY, ops);
    RebuiltOrderlyExactlyWhen(branch);
    if LastCompaction(branch).None? { ContextIsSummaryThenTail(branch); }
  }

  // ---- a cut that strays a result -----------------------------------------------------------------

  /** While the tools of a reply run, the user runs a command that is kept from the model. */
  function Interrupted(reply: Message, first: Message, second: Message): (branch: seq<Entry>) {
    [Entry("1", MessageEntry(Some(LLM(reply)))), Entry("2", MessageEntry(Some(LLM(first)))),
     Entry("3", MessageEntry(Some(Bash("ls", true, 0)))), Entry("4", MessageEntry(Some(LLM(second))))]
  }

  /** The results answer the two calls of the reply. */
  ghost predicate AreAnswers(reply: Message, first: Message, second: Message) {
    && reply.role.Assistant? && !Failed(reply) && first.role.ToolResult? && second.role.ToolResult?
    && Calls(reply) == [first.toolCallID, second.toolCallID] && first.toolCallID != second.toolCallID
  }

  lemma AnswersAreOrderly(reply: Message, first: Message, second: Message)
    requires AreAnswers(reply, first, second)
    ensures Orderly({}, [reply, first, second])
  {
    var calls := ToolCalls(reply.content);
    assert calls[0].id == Calls(reply)[0] && calls[1].id == Calls(reply)[1];
    BatchIsOrderly({}, reply, [first, second]);
    assert [reply] + [first, second] == [reply, first, second];
  }

  lemma MessageIsSent(entries: seq<Entry>, i: nat)
    requires i < |entries| && Counts(entries[i]) && !entries[i].kind.message.value.message.role.OtherRole?
    ensures ProjectAll(MessagesOf(entries[i..]))
         == [entries[i].kind.message.value.message] + ProjectAll(MessagesOf(entries[i + 1..]))
  {
    hide ProjectAll, MessagesOf;
    FirstMessage(entries, i);
  }

  lemma HiddenIsNotSent(entries: seq<Entry>, i: nat)
    requires i < |entries| && !Shows(entries[i])
    ensures ProjectAll(MessagesOf(entries[i..])) == ProjectAll(MessagesOf(entries[i + 1..]))
  {
    hide ProjectAll, MessagesOf;
    FirstMessage(entries, i);
    var rest := ProjectAll(MessagesOf(entries[i + 1..]));
    assert [] + rest == rest;
  }

  lemma NothingIsSent(entries: seq<Entry>)
    ensures ProjectAll(MessagesOf(entries[|entries|..])) == [] && entries[0..] == entries
  {
  }

  lemma SendsThree(branch: seq<Entry>, reply: Message, first: Message, second: Message)
    requires |branch| == 4 && branch[0].kind == MessageEntry(Some(LLM(reply))) && !reply.role.OtherRole?
    requires branch[1].kind == MessageEntry(Some(LLM(first))) && !first.role.OtherRole?
    requires branch[3].kind == MessageEntry(Some(LLM(second))) && !second.role.OtherRole? && !Shows(branch[2])
    ensures ProjectAll(MessagesOf(branch)) == [reply, first, second]
  {
    hide ProjectAll, MessagesOf, Project, MessageFromEntry, Shows;
    NothingIsSent(branch);
    MessageIsSent(branch, 3);
    HiddenIsNotSent(branch, 2);
    MessageIsSent(branch, 1);
    MessageIsSent(branch, 0);
  }

  /** A budget that the results use up exactly puts the cut at the command. */
  lemma CutsAtCommand(branch: seq<Entry>, keep: int)
    requires |branch| == 4 && Counts(branch[0]) && Counts(branch[1]) && !Counts(branch[2]) && Counts(branch[3])
    requires ValidCut(branch[0]) && !ValidCut(branch[1]) && ValidCut(branch[2]) && !ValidCut(branch[3])
    requires StartsTurn(branch[2]) && !IsUserEntry(branch[2])
    requires keep == EntryTokens(branch[1]) + EntryTokens(branch[3]) > EntryTokens(branch[3])
    ensures CutPoint(branch, 0, 4, keep) == Cut(2, Some(2), true) && BudgetCut(branch, 0, 4, keep) == 2
  {
    hide MessageTokens, ValidCut, StartsTurn, IsUserEntry;
    assert TailTokens(branch, 3, 4) == EntryTokens(branch[3]) + TailTokens(branch, 4, 4);
    assert TailTokens(branch, 2, 4) == EntryTokens(branch[2]) + TailTokens(branch, 3, 4);
    assert TailTokens(branch, 1, 4) == keep;
    assert Threshold(branch, 0, 4, 4, keep) == Some(1);
    assert FirstCutFrom(branch, 1, 4) == Some(2) && FirstCutFrom(branch, 0, 4).Some?;
    assert WalkBack(branch, 0, 2) == 2;
  }

  /** A cut at a message that no provider is sent may stand between a call and its result:
      then the rebuilt context starts with a stray result, though the conversation is
      orderly. */
  lemma HiddenCutStraysResult(reply: Message, first: Message, second: Message)
    requires AreAnswers(reply, first, second) && MessageTokens(first) > 0
    ensures var settings := Settings(true, 0, MessageTokens(first) + MessageTokens(second));
            var h := Apply(History(Interrupted(reply, first, second), [], []), Compact(settings, "5", "s", 0));
            OrderlyContext(MessagesOf(h.branch)) && Consistent(h) && !OrderlyContext(RebuiltContext(h.branch))
  {
    var branch := Interrupted(reply, first, second);
    var settings := Settings(true, 0, MessageTokens(first) + MessageTokens(second));
    var c := Entry("5", CompactionEntry("s", "3", 0));
    PreparesAtCommand(branch, settings);
    SendsThree(branch, reply, first, second);
    AnswersAreOrderly(reply, first, second);
    assert Consistent(History(branch, [], [])) by { assert LastCompaction(branch).None? && branch[..0] == []; }
    hide MessageTokens, MessagesOf, ProjectAll, Prepared, AreAnswers;
    StraysBehind(branch, c);
    CompactKeepsConsistent(History(branch, [], []), settings, "5", "s", 0);
  }

  lemma PreparesAtCommand(branch: seq<Entry>, settings: Settings)
    requires |branch| == 4 && Counts(branch[0]) && Counts(branch[1]) && !Counts(branch[2]) && Counts(branch[3])
    requires ValidCut(branch[0]) && !ValidCut(branch[1]) && ValidCut(branch[2]) && !ValidCut(branch[3])
    requires StartsTurn(branch[2]) && !IsUserEntry(branch[2]) && branch[2].id != "" && settings.enabled
    requires settings.keepRecentTokens == EntryTokens(branch[1]) + EntryTokens(branch[3]) > EntryTokens(branch[3])
    ensures Prepared(branch, settings).Some? && Prepared(branch, settings).value.firstKeptEntryID == branch[2].id
  {
    CutsAtCommand(branch, settings.keepRecentTokens);
    hide EntryTokens, ValidCut, StartsTurn, IsUserEntry, MessagesOf, CutPoint;
    assert LastCompaction(branch).None?;
  }

  lemma ShownThird(entries: seq<Entry>)
    requires |entries| > 3 && !Shows(entries[2]) && Shows(entries[3])
    ensures FirstShown(entries, 2) == Some(3)
  {
    hide Shows;
    assert FirstShown(entries, 3) == Some(3);
  }

  lemma TailFrom(branch: seq<Entry>, b: nat)
    requires Boundary(branch) == b
    ensures Tail(branch) == MessagesOf(branch[b..])
  {
  }

  lemma CompactionSaysNothing(branch: seq<Entry>, c: Entry)
    requires c.kind.CompactionEntry?
    ensures MessagesOf(branch + [c]) == MessagesOf(branch)
  {
    assert (branch + [c])[..|branch|] == branch;
    assert MessagesOf(branch) + [] == MessagesOf(branch);
  }

  lemma StraysBehind(branch: seq<Entry>, c: Entry)
    requires UniqueIDs(branch) && Fresh(branch, c.id) && |branch| == 4 && OrderlyContext(MessagesOf(branch))
    requires c.kind.CompactionEntry? && c.kind.firstKeptEntryID == branch[2].id
    requires !Shows(branch[2]) && Shows(branch[3]) && ShowsResult(branch[3])
    ensures OrderlyContext(MessagesOf(branch + [c])) && !OrderlyContext(RebuiltContext(branch + [c]))
  {
    hide *;
    var next := branch + [c];
    CompactionSetsBoundary(branch, 2, c);
    CompactionSaysNothing(branch, c);
    ShownThird(next);
    StartsAsFirstShown(next, 2);
    assert StartsWithResult(Tail(next)) by { TailFrom(next, 2); }
    RebuiltOrderlyExactlyWhen(next);
  }
}
