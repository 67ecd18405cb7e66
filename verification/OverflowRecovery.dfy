/** Recovering from a context overflow by compacting once and going on: when it is tried,
    what it leaves of the branch, and that it is never tried again before a reply went
    through. */
module OverflowRecovery {
  import opened Messages
  import opened AgentMessages
  import opened Compaction
  import opened Retry

  /** How overflows are recognised and entry timestamps are read. */
  datatype Readers = Readers(overflow: (Message, Model) -> bool, millis: Entry -> Option<int>)

  /** The compaction a call asks for: its summary fails, or the notice about it does when it
      is already written. */
  datatype Compacting = Compacting(
    settings: Compaction.Settings,
    id: string,
    summary: Option<string>,
    timestamp: int,
    noticeFails: bool)

  /** One call: the reply it is about (before a prompt the last one), the settings and models
      of the moment, and how the session and the harness answer. */
  datatype Call = Call(
    about: Option<Message>,
    branchFails: bool,
    enabled: bool,
    model: Model,
    current: Model,
    moveFails: bool,
    compacting: Compacting,
    recorded: seq<Entry>,
    continued: Option<Message>)

  datatype Outcome = Unreadable | NoReply | Kept(reply: Message) | Refused | Failed | Recovered(reply: Message)

  datatype Event = CompactionStart | CompactionEnd(willRetry: bool)

  function Found(branch: seq<Entry>, c: Call): (k: Option<nat>)
    ensures k.Some? ==> k.value < |branch| && IsReply(branch[k.value])
  {
    if c.branchFails then None
    else if c.about.Some? then EntryFor(branch, c.about.value) else LastReply(branch)
  }

  function ReplyAt(branch: seq<Entry>, k: nat): Message
    requires k < |branch| && IsReply(branch[k])
  {
    branch[k].kind.message.value.message
  }

  /** A reply that neither overflowed nor failed. */
  predicate WentThrough(m: Message, c: Call, r: Readers) {
    !r.overflow(m, c.model) && !m.stopReason.Error?
  }

  predicate SameModel(provider: string, id: string, model: Model) {
    provider == model.provider && id == model.id
  }

  /** By the clock, the reply is not later than the last compaction; a time that cannot be
      read counts as later. */
  predicate BeforeCompaction(branch: seq<Entry>, k: nat, r: Readers)
    requires k < |branch| && IsReply(branch[k])
  {
    var last := LastCompaction(branch);
    last.Some?
    && var mine := if ReplyAt(branch, k).timestamp == 0 then r.millis(branch[k])
                   else Some(ReplyAt(branch, k).timestamp);
       var its := r.millis(branch[last.value]);
       mine.Some? && its.Some? && mine.value <= its.value
  }

  /** Recovery is due: an overflow of the current model, not from before a compaction. */
  predicate Due(branch: seq<Entry>, c: Call, r: Readers) {
    var k := Found(branch, c);
    && k.Some? && r.overflow(ReplyAt(branch, k.value), c.model) && c.enabled
    && SameModel(ReplyAt(branch, k.value).provider, ReplyAt(branch, k.value).model, c.model)
    && SameModel(c.current.provider, c.current.id, c.model)
    && !BeforeCompaction(branch, k.value, r)
  }

  /** The branch with the compaction, if one comes about. */
  function WithCompaction(branch: seq<Entry>, c: Compacting): seq<Entry> {
    if c.summary.None? then branch
    else Apply(History(branch, [], []), Compact(c.settings, c.id, c.summary.value, c.timestamp)).branch
  }

  predicate Compacts(branch: seq<Entry>, c: Compacting) {
    Prepared(branch, c.settings).Some? && c.summary.Some? && !c.noticeFails
  }

  predicate Tries(attempted: bool, branch: seq<Entry>, c: Call, r: Readers) {
    Due(branch, c, r) && !attempted
  }

  predicate Succeeds(branch: seq<Entry>, c: Call, r: Readers) {
    Due(branch, c, r) && !c.moveFails && Compacts(branch[..Found(branch, c).value], c.compacting)
    && c.continued.Some? && WentThrough(c.continued.value, c, r)
  }

  /** The branch an attempt leaves: cut in front of the reply, compacted and continued, as
      far as it comes. */
  function Cleaned(branch: seq<Entry>, c: Call): seq<Entry> {
    var k := Found(branch, c);
    if k.None? || c.moveFails then branch
    else if Compacts(branch[..k.value], c.compacting)
    then WithCompaction(branch[..k.value], c.compacting) + c.recorded
    else WithCompaction(branch[..k.value], c.compacting)
  }

  function AttemptedAfter(attempted: bool, branch: seq<Entry>, c: Call, r: Readers): bool {
    if Found(branch, c).None? then attempted
    else if WentThrough(ReplyAt(branch, Found(branch, c).value), c, r) then false
    else if Tries(attempted, branch, c, r) then !Succeeds(branch, c, r)
    else attempted
  }

  /** How a call is answered by the flag it finds: tried exactly when it is due and was not
      tried before, and a second overflow in a row is refused. */
  function Answer(attempted: bool, branch: seq<Entry>, c: Call, r: Readers): Outcome {
    if c.branchFails then Unreadable
    else if Found(branch, c).None? then (if c.about.Some? then Kept(c.about.value) else NoReply)
    else if !Due(branch, c, r) then Kept(ReplyAt(branch, Found(branch, c).value))
    else if attempted then Refused
    else if Succeeds(branch, c, r) then Recovered(c.continued.value)
    else Failed
  }

  class Recovery {
    var attempted: bool
    var branch: seq<Entry>
    var events: seq<Event>
    const readers: Readers

    constructor (readers: Readers, branch: seq<Entry>)
      ensures this.readers == readers && this.branch == branch && !attempted && events == []
    {
      this.readers, this.branch, attempted, events := readers, branch, false, [];
    }

    /** Finds the reply, and recovers from its overflow. */
    method RecoverOverflow(c: Call) returns (outcome: Outcome)
      modifies this
      ensures outcome == Answer(old(attempted), old(branch), c, readers)
      ensures attempted == AttemptedAfter(old(attempted), old(branch), c, readers)
      ensures branch == if Tries(old(attempted), old(branch), c, readers) then Cleaned(old(branch), c) else old(branch)
      ensures events == old(events) + if !Tries(old(attempted), old(branch), c, readers) then []
                                      else [CompactionStart, CompactionEnd(!c.moveFails
                                        && Compacts(old(branch)[..Found(old(branch), c).value], c.compacting))]
    {
      var k: Option<nat>;
      if c.branchFails {
        return Unreadable;
      } else if c.about.Some? {
        k := AssistantEntryForMessage(branch, c.about.value);
        if k.None? { return Kept(c.about.value); }
      } else {
        k := LastAssistantEntry(branch);
        if k.None? { return NoReply; }
      }
      outcome := RecoverContextOverflow(c, k.value);
    }

    method RecoverContextOverflow(c: Call, k: nat) returns (outcome: Outcome)
      requires Found(branch, c) == Some(k)
      modifies this
      ensures outcome == Answer(old(attempted), old(branch), c, readers)
      ensures attempted == AttemptedAfter(old(attempted), old(branch), c, readers)
      ensures branch == if Tries(old(attempted), old(branch), c, readers) then Cleaned(old(branch), c) else old(branch)
      ensures events == old(events) + if !Tries(old(attempted), old(branch), c, readers) then []
                                      else [CompactionStart, CompactionEnd(!c.moveFails
                                                               && Compacts(old(branch)[..k], c.compacting))]
    {
      hide BeforeCompaction;
      hide Succeeds;
      hide Compacts;
      hide Cleaned;
      hide EntryFor;
      hide LastReply;
      var msg := branch[k].kind.message.value.message;
      if !readers.overflow(msg, c.model) {
        if !msg.stopReason.Error? { attempted := false; }
        return Kept(msg);
      }
      if !c.enabled || !SameModel(msg.provider, msg.model, c.model)
         || !SameModel(c.current.provider, c.current.id, c.model) {
        return Kept(msg);
      }
      var before := IsBeforeLatestCompaction(branch, k, readers);
      if before { return Kept(msg); }
      if attempted { return Refused; }
      outcome := Attempt(c, k);
    }

    /** The one attempt: move, compact, continue. */
    method Attempt(c: Call, k: nat) returns (outcome: Outcome)
      requires Found(branch, c) == Some(k) && Due(branch, c, readers) && !attempted
      modifies this
      ensures outcome == if Succeeds(old(branch), c, readers) then Recovered(c.continued.value) else Failed
      ensures attempted == !Succeeds(old(branch), c, readers) && branch == Cleaned(old(branch), c)
      ensures events == old(events)
                        + [CompactionStart, CompactionEnd(!c.moveFails && Compacts(old(branch)[..k], c.compacting))]
    {
      hide Due;
      hide Compacts;
      hide WithCompaction;
      attempted := true;
      events := events + [CompactionStart];
      if c.moveFails {
        events := events + [CompactionEnd(false)];
        return Failed;
      }
      branch := branch[..k];
      var compacted := HarnessCompact(c.compacting);
      events := events + [CompactionEnd(compacted)];
      if !compacted { return Failed; }
      branch := branch + c.recorded;
      if c.continued.None? || readers.overflow(c.continued.value, c.model) || c.continued.value.stopReason.Error? {
        return Failed;
      }
      attempted := false;
      return Recovered(c.continued.value);
    }

    /** The harness compacts the active branch: prepared, summarised, written, then noticed. */
    method HarnessCompact(c: Compacting) returns (ok: bool)
      modifies this`branch
      ensures ok == Compacts(old(branch), c) && branch == WithCompaction(old(branch), c)
    {
      var prep := PrepareCompaction(branch, c.settings);
      if prep.None? || c.summary.None? { return false; }
      branch := branch + [Entry(c.id, CompactionEntry(c.summary.value, prep.value.firstKeptEntryID, c.timestamp))];
      return !c.noticeFails;
    }
  }

  method LastAssistantEntry(branch: seq<Entry>) returns (k: Option<nat>)
    ensures k == LastReply(branch)
  {
    var i := |branch|;
    while i > 0
      invariant 0 <= i <= |branch|
      invariant forall j | i <= j < |branch| :: !IsReply(branch[j])
    {
      i := i - 1;
      if IsReply(branch[i]) { return Some(i); }
    }
    return None;
  }

  method IsBeforeLatestCompaction(branch: seq<Entry>, k: nat, r: Readers) returns (before: bool)
    requires k < |branch| && IsReply(branch[k])
    ensures before == BeforeCompaction(branch, k, r)
  {
    var compaction := LatestCompaction(branch);
    if compaction.None? { return false; }
    var mine := Some(branch[k].kind.message.value.message.timestamp);
    if mine.value == 0 {
      mine := r.millis(branch[k]);
      if mine.None? { return false; }
    }
    var its := r.millis(branch[compaction.value]);
    return its.Some? && mine.value <= its.value;
  }

  // ---- what an attempt leaves ------------------------------------------------------------------

  /** No message of a context is the reply. */
  ghost predicate Unseen(context: seq<AgentMessage>, m: Message) {
    forall a <- context :: a.LLM? && a.message.role.Assistant? ==> !Matches(a.message, m)
  }

  lemma {:induction false} NowhereUnseen(entries: seq<Entry>, m: Message)
    requires Nowhere(entries, m)
    ensures Unseen(MessagesOf(entries), m)
  {
    if entries != [] {
      NowhereUnseen(entries[..|entries| - 1], m);
      assert !Holds(entries[|entries| - 1], m);
    }
  }

  lemma RebuiltUnseen(branch: seq<Entry>, m: Message)
    requires Nowhere(branch, m)
    ensures Unseen(RebuiltContext(branch), m)
  {
    var last := LastCompaction(branch);
    if last.None? {
      NowhereUnseen(branch, m);
    } else {
      var kept := FirstWithID(branch[..last.value], branch[last.value].kind.firstKeptEntryID);
      if kept.Some? { NowhereUnseen(branch[kept.value..last.value], m); }
      NowhereUnseen(branch[last.value + 1..], m);
    }
  }

  /** A session that can be moved leaves the overflowing reply nowhere on the branch, and so
      in no context rebuilt from it, exactly when it stood there once and the continuation
      does not record it again. */
  lemma OverflowLeavesBranch(branch: seq<Entry>, c: Call)
    requires Found(branch, c).Some? && !c.moveFails
    ensures
      var k := Found(branch, c).value;
      var m := ReplyAt(branch, k);
      && (Nowhere(Cleaned(branch, c), m) <==>
            Nowhere(branch[..k], m)
            && (Compacts(branch[..k], c.compacting) ==> Nowhere(c.recorded, m)))
      && (AllDistinct(branch) && Nowhere(c.recorded, m) ==>
            Nowhere(Cleaned(branch, c), m) && Unseen(RebuiltContext(Cleaned(branch, c)), m))
  {
    var k := Found(branch, c).value;
    var m := ReplyAt(branch, k);
    var kept := branch[..k];
    var compacted := WithCompaction(kept, c.compacting);
    assert compacted == kept || (compacted[..k] == kept && |compacted| == k + 1 && !IsReply(compacted[k]));
    assert Nowhere(compacted, m) <==> Nowhere(kept, m) by {
      forall i | 0 <= i < k && Holds(kept[i], m) ensures Holds(compacted[i], m) {}
      forall i | 0 <= i < |compacted| && Holds(compacted[i], m) ensures i < k && Holds(kept[i], m) {}
    }
    JoinNowhere(compacted, c.recorded, m);
    if AllDistinct(branch) && Nowhere(c.recorded, m) {
      forall i | 0 <= i < k ensures !Holds(kept[i], m) { assert kept[i] == branch[i]; }
      RebuiltUnseen(Cleaned(branch, c), m);
    }
  }

  lemma JoinNowhere(a: seq<Entry>, b: seq<Entry>, m: Message)
    ensures Nowhere(a + b, m) <==> Nowhere(a, m) && Nowhere(b, m)
  {
    assert forall i | 0 <= i < |b| :: (a + b)[|a| + i] == b[i];
    assert forall i | 0 <= i < |a| :: (a + b)[i] == a[i];
  }

  // ---- sequences of calls ----------------------------------------------------------------------

  /** A call and the branch it finds, whatever happened to it in between. */
  datatype Situation = Situation(branch: seq<Entry>, call: Call)

  /** The flag before the `n`th of some calls. */
  function FlagAt(calls: seq<Situation>, n: nat, r: Readers): bool
    requires n <= |calls|
  {
    if n == 0 then false
    else AttemptedAfter(FlagAt(calls, n - 1, r), calls[n - 1].branch, calls[n - 1].call, r)
  }

  predicate TriesAt(calls: seq<Situation>, k: nat, r: Readers)
    requires k < |calls|
  {
    Tries(FlagAt(calls, k, r), calls[k].branch, calls[k].call, r)
  }

  /** A reply went through in the call: the one it is about, or the one it was continued with. */
  ghost predicate Answers(calls: seq<Situation>, k: nat, r: Readers)
    requires k < |calls|
  {
    var at, c := calls[k].branch, calls[k].call;
    || (Found(at, c).Some? && WentThrough(ReplyAt(at, Found(at, c).value), c, r))
    || (TriesAt(calls, k, r) && Succeeds(at, c, r))
  }

  /** An attempt was made by call `i` and no reply went through from it up to call `n`. */
  ghost predicate Unanswered(calls: seq<Situation>, i: nat, n: nat, r: Readers)
    requires n <= |calls|
  {
    i < n && TriesAt(calls, i, r) && forall k | i <= k < n :: !Answers(calls, k, r)
  }

  lemma FlagSteps(calls: seq<Situation>, m: nat, r: Readers)
    requires m < |calls|
    ensures FlagAt(calls, m + 1, r) <==> !Answers(calls, m, r) && (FlagAt(calls, m, r) || TriesAt(calls, m, r))
  {
    hide BeforeCompaction;
    hide Compacts;
    hide EntryFor;
    hide LastReply;
  }

  /** The flag is up exactly when an attempt was made since the last reply that went through. */
  lemma {:induction false} FlagMeans(calls: seq<Situation>, n: nat, r: Readers)
    requires n <= |calls|
    ensures FlagAt(calls, n, r) <==> exists i: nat :: Unanswered(calls, i, n, r)
  {
    hide AttemptedAfter;
    hide Answers;
    hide TriesAt;
    if n > 0 {
      var m := n - 1;
      FlagSteps(calls, m, r);
      FlagMeans(calls, m, r);
      if FlagAt(calls, n, r) {
        if FlagAt(calls, m, r) {
          var i: nat :| Unanswered(calls, i, m, r);
          assert Unanswered(calls, i, n, r);
        } else {
          assert Unanswered(calls, m, n, r);
        }
      }
      if i: nat :| Unanswered(calls, i, n, r) {
        assert !Answers(calls, m, r);
        if i < m { assert Unanswered(calls, i, m, r); }
      }
    }
  }

  /** Over any sequence of calls, between two attempts a reply went through. */
  lemma AttemptsAreSeparated(calls: seq<Situation>, i: nat, j: nat, r: Readers)
    requires i < j < |calls| && TriesAt(calls, i, r) && TriesAt(calls, j, r)
    ensures exists k :: i <= k < j && Answers(calls, k, r)
  {
    FlagMeans(calls, j, r);
    assert !Unanswered(calls, i, j, r);
  }
}
