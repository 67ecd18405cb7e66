/** What a provider demands of a transcript, what a caller must hand over, and
    the proof that the rewrite turns the second into the first. */
module Transcript {
  import opened Messages
  import opened Transform

  /** A provider accepts a transcript whose every reply has its calls answered
      exactly once before the next user or assistant message, and whose every
      result answers a call of the nearest preceding reply. `owed` holds the
      calls still open. */
  ghost predicate Legal(owed: set<string>, ms: seq<Message>)
    decreases |ms|
  {
    if ms == [] then owed == {}
    else match ms[0].role
      case ToolResult => ms[0].toolCallID in owed && Legal(owed - {ms[0].toolCallID}, ms[1..])
      case User => owed == {} && Legal({}, ms[1..])
      case Assistant => owed == {} && NoDuplicates(Calls(ms[0])) && Legal(Elements(Calls(ms[0])), ms[1..])
      case OtherRole(_) => Legal(owed, ms[1..])
  }

  /** What a message leaves open for the results that follow it. A failed reply
      opens nothing: it is going to be removed. */
  function Opens(m: Message): set<string> {
    if m.role.Assistant? && !Failed(m) then Elements(Calls(m)) else {}
  }

  /** A transcript as the agent loop leaves it: results answer distinct calls of
      the reply they follow, but some calls may be left unanswered and replies
      may have failed. */
  ghost predicate Orderly(open: set<string>, ms: seq<Message>)
    decreases |ms|
  {
    if ms == [] then true
    else match ms[0].role
      case ToolResult => ms[0].toolCallID in open && Orderly(open - {ms[0].toolCallID}, ms[1..])
      case Assistant => (Failed(ms[0]) || NoDuplicates(Calls(ms[0]))) && Orderly(Opens(ms[0]), ms[1..])
      case User => Orderly({}, ms[1..])
      case OtherRole(_) => Orderly(open, ms[1..])
  }

  function Owed(pending: seq<Block>, answered: set<string>): set<string>
    requires forall c <- pending :: c.ToolCall?
  {
    Elements(CallIDs(pending)) - answered
  }

  lemma OwedStep(pending: seq<Block>, answered: set<string>)
    requires pending != [] && (forall c <- pending :: c.ToolCall?) && NoDuplicates(CallIDs(pending))
    ensures NoDuplicates(CallIDs(pending[1..]))
    ensures pending[0].id in answered ==> Owed(pending, answered) == Owed(pending[1..], answered)
    ensures pending[0].id !in answered ==>
      pending[0].id in Owed(pending, answered)
      && Owed(pending, answered) - {pending[0].id} == Owed(pending[1..], answered)
  {
    var ids := CallIDs(pending);
    assert CallIDs(pending[1..]) == ids[1..];
    assert ids == [ids[0]] + ids[1..];
    assert ids[0] !in ids[1..];
  }

  /** The synthetic results discharge exactly what is owed. */
  lemma {:induction false} FlushDischarges(pending: seq<Block>, answered: set<string>, now: int, rest: seq<Message>)
    requires (forall c <- pending :: c.ToolCall?) && NoDuplicates(CallIDs(pending))
    ensures Legal(Owed(pending, answered), Flush(pending, answered, now) + rest) <==> Legal({}, rest)
  {
    if pending == [] {
      assert Owed(pending, answered) == {};
      assert Flush(pending, answered, now) + rest == rest;
    } else {
      OwedStep(pending, answered);
      FlushDischarges(pending[1..], answered, now, rest);
      if pending[0].id !in answered {
        var out := Flush(pending, answered, now) + rest;
        assert out[0] == SyntheticResult(pending[0], now);
        assert out[1..] == Flush(pending[1..], answered, now) + rest;
      } else {
        assert Flush(pending, answered, now) == Flush(pending[1..], answered, now);
      }
    }
  }

  /** The repaired transcript is legal exactly when the input was orderly. */
  lemma {:induction false} RepairIsLegalIffOrderly(ms: seq<Message>, pending: seq<Block>, answered: set<string>,
                                                   now: int)
    requires (forall c <- pending :: c.ToolCall?) && NoDuplicates(CallIDs(pending))
    ensures Legal(Owed(pending, answered), Repair(ms, pending, answered, now)) <==> Orderly(Owed(pending, answered), ms)
    decreases |ms|
  {
    if ms == [] {
      FlushDischarges(pending, answered, now, []);
      assert Flush(pending, answered, now) + [] == Flush(pending, answered, now);
    } else {
      var m, rest := ms[0], ms[1..];
      var flushed := Flush(pending, answered, now);
      assert Owed([], {}) == {};
      match m.role
      case ToolResult =>
        RepairIsLegalIffOrderly(rest, pending, answered + {m.toolCallID}, now);
        assert Owed(pending, answered + {m.toolCallID}) == Owed(pending, answered) - {m.toolCallID};
        StartsWith(m, Repair(rest, pending, answered + {m.toolCallID}, now));
      case OtherRole(_) =>
        RepairIsLegalIffOrderly(rest, pending, answered, now);
        StartsWith(m, Repair(rest, pending, answered, now));
      case User =>
        RepairIsLegalIffOrderly(rest, [], {}, now);
        var tail := Repair(rest, [], {}, now);
        FlushDischarges(pending, answered, now, [m] + tail);
        assert flushed + [m] + tail == flushed + ([m] + tail);
        StartsWith(m, tail);
      case Assistant =>
        if Failed(m) {
          RepairIsLegalIffOrderly(rest, [], {}, now);
          FlushDischarges(pending, answered, now, Repair(rest, [], {}, now));
        } else {
          var calls := ToolCalls(m.content);
          var tail := Repair(rest, calls, {}, now);
          if NoDuplicates(Calls(m)) {
            RepairIsLegalIffOrderly(rest, calls, {}, now);
            assert Owed(calls, {}) == Opens(m);
          }
          FlushDischarges(pending, answered, now, [m] + tail);
          assert flushed + [m] + tail == flushed + ([m] + tail);
          StartsWith(m, tail);
        }
    }
  }

  lemma Associate(flush: seq<Message>, m: Message, tail: seq<Message>)
    ensures flush + [m] + tail == flush + ([m] + tail)
  {
  }

  lemma StartsWith(m: Message, tail: seq<Message>)
    ensures ([m] + tail)[0] == m && ([m] + tail)[1..] == tail
  {
  }

  // ---- what Legal means, without the automaton --------------------------------

  /** How many results for the call `id` come before the next user or assistant message. */
  function AnswersAhead(ms: seq<Message>, id: string): nat {
    if ms == [] || ms[0].role.User? || ms[0].role.Assistant? then 0
    else (if ms[0].role.ToolResult? && ms[0].toolCallID == id then 1 else 0) + AnswersAhead(ms[1..], id)
  }

  /** Each id in `owed` is answered exactly once ahead, and no other id is. */
  ghost predicate AnswersExactly(owed: set<string>, ahead: seq<Message>) {
    forall id :: AnswersAhead(ahead, id) == (if id in owed then 1 else 0)
  }

  ghost predicate SettledAt(ms: seq<Message>, i: nat)
    requires i < |ms|
  {
    && (ms[i].role.User? ==> AnswersExactly({}, ms[i + 1..]))
    && (ms[i].role.Assistant? ==> NoDuplicates(Calls(ms[i])) && AnswersExactly(Elements(Calls(ms[i])), ms[i + 1..]))
  }

  ghost predicate Settled(ms: seq<Message>) {
    forall i | 0 <= i < |ms| :: SettledAt(ms, i)
  }

  lemma SettledTail(ms: seq<Message>)
    requires ms != []
    ensures Settled(ms) <==> SettledAt(ms, 0) && Settled(ms[1..])
  {
    forall i | 0 <= i < |ms[1..]|
      ensures SettledAt(ms[1..], i) <==> SettledAt(ms, i + 1)
    {
      assert ms[1..][i + 1..] == ms[i + 2..];
    }
    if SettledAt(ms, 0) && Settled(ms[1..]) {
      forall i | 0 <= i < |ms| ensures SettledAt(ms, i) {
        if i > 0 { assert SettledAt(ms[1..], i - 1); }
      }
    }
  }

  /** A transcript is legal exactly when every result ahead of every turn answers
      one of that turn's calls, each call once. */
  lemma {:induction false} LegalMeansAnsweredOnce(owed: set<string>, ms: seq<Message>)
    ensures Legal(owed, ms) <==> AnswersExactly(owed, ms) && Settled(ms)
    decreases |ms|
  {
    if ms == [] {
      if owed != {} {
        var id :| id in owed;
        assert AnswersAhead(ms, id) == 0;
      }
    } else {
      var m, rest := ms[0], ms[1..];
      SettledTail(ms);
      match m.role
      case ToolResult =>
        LegalMeansAnsweredOnce(owed - {m.toolCallID}, rest);
        forall id ensures AnswersAhead(ms, id) == (if id == m.toolCallID then 1 else 0) + AnswersAhead(rest, id) {}
        if AnswersExactly(owed, ms) {
          assert AnswersAhead(ms, m.toolCallID) == 1 + AnswersAhead(rest, m.toolCallID);
          forall id ensures AnswersAhead(rest, id) == (if id in owed - {m.toolCallID} then 1 else 0) {
            assert AnswersAhead(ms, id) == (if id in owed then 1 else 0);
          }
        }
      case OtherRole(_) =>
        LegalMeansAnsweredOnce(owed, rest);
        forall id ensures AnswersAhead(ms, id) == AnswersAhead(rest, id) {}
      case User =>
        LegalMeansAnsweredOnce({}, rest);
        NothingAheadOfATurn(owed, ms);
      case Assistant =>
        LegalMeansAnsweredOnce(Elements(Calls(m)), rest);
        NothingAheadOfATurn(owed, ms);
    }
  }

  lemma NothingAheadOfATurn(owed: set<string>, ms: seq<Message>)
    requires ms != [] && (ms[0].role.User? || ms[0].role.Assistant?)
    ensures AnswersExactly(owed, ms) <==> owed == {}
  {
    if owed != {} {
      var id :| id in owed;
      assert AnswersAhead(ms, id) == 0;
    }
  }

  // ---- the repair only inserts, and only once ------------------------------------

  /** The messages the repair keeps: everything but failed replies. */
  function Kept(ms: seq<Message>): seq<Message> {
    if ms == [] then []
    else (if ms[0].role.Assistant? && Failed(ms[0]) then [] else [ms[0]]) + Kept(ms[1..])
  }

  function Unmarked(ms: seq<Message>, marks: seq<bool>): seq<Message>
    requires |ms| == |marks|
  {
    if ms == [] then [] else (if marks[0] then [] else [ms[0]]) + Unmarked(ms[1..], marks[1..])
  }

  predicate IsSynthetic(m: Message, now: int) {
    m == SyntheticResult(ToolCall(m.toolCallID, m.toolName, "", ""), now)
  }

  ghost predicate MarksSynthetics(marks: seq<bool>, out: seq<Message>, kept: seq<Message>, now: int) {
    && |marks| == |out|
    && Unmarked(out, marks) == kept
    && forall k | 0 <= k < |out| && marks[k] :: IsSynthetic(out[k], now)
  }

  lemma {:induction false} UnmarkedConcat(a: seq<Message>, b: seq<Message>, ma: seq<bool>, mb: seq<bool>)
    requires |a| == |ma| && |b| == |mb|
    ensures Unmarked(a + b, ma + mb) == Unmarked(a, ma) + Unmarked(b, mb)
  {
    if a == [] {
      assert a + b == b && ma + mb == mb;
    } else {
      assert (a + b)[1..] == a[1..] + b && (ma + mb)[1..] == ma[1..] + mb;
      UnmarkedConcat(a[1..], b, ma[1..], mb);
    }
  }

  lemma MarksConcat(a: seq<Message>, b: seq<Message>, ma: seq<bool>, mb: seq<bool>, ka: seq<Message>, kb: seq<Message>,
                    now: int)
    requires MarksSynthetics(ma, a, ka, now) && MarksSynthetics(mb, b, kb, now)
    ensures MarksSynthetics(ma + mb, a + b, ka + kb, now)
  {
    UnmarkedConcat(a, b, ma, mb);
  }

  lemma {:induction false} FlushMarks(pending: seq<Block>, answered: set<string>, now: int) returns (marks: seq<bool>)
    requires forall c <- pending :: c.ToolCall?
    ensures MarksSynthetics(marks, Flush(pending, answered, now), [], now)
  {
    if pending == [] {
      marks := [];
    } else {
      var rest := FlushMarks(pending[1..], answered, now);
      if pending[0].id in answered {
        assert Flush(pending, answered, now) == Flush(pending[1..], answered, now);
        marks := rest;
      } else {
        marks := [true] + rest;
        assert marks[1..] == rest && Flush(pending, answered, now)[1..] == Flush(pending[1..], answered, now);
      }
    }
  }

  /** Erasing the synthetic results gives back the input without its failed
      replies, in order. */
  lemma MarksAroundTurn(flush: seq<Message>, m: Message, tail: seq<Message>, flushed: seq<bool>, tailMarks: seq<bool>,
                        kept: seq<Message>, now: int)
    requires MarksSynthetics(flushed, flush, [], now) && MarksSynthetics(tailMarks, tail, kept, now)
    ensures MarksSynthetics(flushed + [false] + tailMarks, flush + [m] + tail, [m] + kept, now)
  {
    assert MarksSynthetics([false], [m], [m], now);
    MarksConcat(flush, [m], flushed, [false], [], [m], now);
    MarksConcat(flush + [m], tail, flushed + [false], tailMarks, [] + [m], kept, now);
    assert [] + [m] + kept == [m] + kept;
  }

  lemma {:induction false} RepairOnlyInserts(ms: seq<Message>, pending: seq<Block>, answered: set<string>, now: int)
    returns (marks: seq<bool>)
    requires forall c <- pending :: c.ToolCall?
    ensures MarksSynthetics(marks, Repair(ms, pending, answered, now), Kept(ms), now)
    decreases |ms|
  {
    var flushed := FlushMarks(pending, answered, now);
    if ms == [] {
      marks := flushed;
    } else {
      var m, rest := ms[0], ms[1..];
      var flush := Flush(pending, answered, now);
      var tail, tailMarks;
      match m.role
      case ToolResult =>
        tail := Repair(rest, pending, answered + {m.toolCallID}, now);
        tailMarks := RepairOnlyInserts(rest, pending, answered + {m.toolCallID}, now);
        marks := [false] + tailMarks;
        assert MarksSynthetics([false], [m], [m], now);
        MarksConcat([m], tail, [false], tailMarks, [m], Kept(rest), now);
      case OtherRole(_) =>
        tail := Repair(rest, pending, answered, now);
        tailMarks := RepairOnlyInserts(rest, pending, answered, now);
        marks := [false] + tailMarks;
        assert MarksSynthetics([false], [m], [m], now);
        MarksConcat([m], tail, [false], tailMarks, [m], Kept(rest), now);
      case _ =>
        var next := if m.role.Assistant? && !Failed(m) then ToolCalls(m.content) else [];
        tail := Repair(rest, next, {}, now);
        tailMarks := RepairOnlyInserts(rest, next, {}, now);
        if m.role.Assistant? && Failed(m) {
          marks := flushed + tailMarks;
          MarksConcat(flush, tail, flushed, tailMarks, [], Kept(rest), now);
        } else {
          marks := flushed + [false] + tailMarks;
          MarksAroundTurn(flush, m, tail, flushed, tailMarks, Kept(rest), now);
        }
    }
  }

  lemma {:induction false} NothingOwedNothingFlushed(pending: seq<Block>, answered: set<string>, now: int)
    requires forall c <- pending :: c.ToolCall?
    requires Owed(pending, answered) == {}
    ensures Flush(pending, answered, now) == []
  {
    if pending != [] {
      var ids := CallIDs(pending);
      assert CallIDs(pending[1..]) == ids[1..];
      assert Elements(ids) == Owed(pending, answered) + Elements(ids) * answered;
      assert Elements(ids[1..]) <= Elements(ids);
      assert ids[0] in Elements(ids);
      NothingOwedNothingFlushed(pending[1..], answered, now);
    }
  }

  /** A second repair reads the first one's synthetic results as answers. */
  lemma RepairReadsResult(m: Message, tail: seq<Message>, rest: seq<Message>, pending: seq<Block>,
                          answered: set<string>, now: int)
    requires m.role.ToolResult? && forall c <- pending :: c.ToolCall?
    ensures Repair([m] + tail + rest, pending, answered, now)
         == [m] + Repair(tail + rest, pending, answered + {m.toolCallID}, now)
  {
    assert [m] + tail + rest == [m] + (tail + rest);
    StartsWith(m, tail + rest);
  }

  /** The first pending call is owed unless it is answered, and so are the others. */
  lemma OwedFirst(pending: seq<Block>, answered: set<string>)
    requires pending != [] && forall c <- pending :: c.ToolCall?
    ensures Owed(pending, answered)
         == (if pending[0].id in answered then {} else {pending[0].id}) + Owed(pending[1..], answered)
  {
    var ids := CallIDs(pending);
    assert CallIDs(pending[1..]) == ids[1..] && ids == [ids[0]] + ids[1..];
  }

  lemma {:induction false} RepairReadsFlush(pending: seq<Block>, answered: set<string>, now: int, rest: seq<Message>,
                                            pending': seq<Block>, answered': set<string>, now': int)
    requires (forall c <- pending :: c.ToolCall?) && (forall c <- pending' :: c.ToolCall?)
    ensures Repair(Flush(pending, answered, now) + rest, pending', answered', now')
         == Flush(pending, answered, now) + Repair(rest, pending', answered' + Owed(pending, answered), now')
  {
    hide Repair;
    if pending == [] {
      assert Flush(pending, answered, now) + rest == rest;
      assert answered' + Owed(pending, answered) == answered';
    } else {
      OwedFirst(pending, answered);
      hide Owed;
      var tail := Flush(pending[1..], answered, now);
      if pending[0].id in answered {
        RepairReadsFlush(pending[1..], answered, now, rest, pending', answered', now');
        assert Owed(pending, answered) == Owed(pending[1..], answered);
        assert Flush(pending, answered, now) == tail;
      } else {
        var next := answered' + {pending[0].id};
        RepairReadsFlush(pending[1..], answered, now, rest, pending', next, now');
        assert next + Owed(pending[1..], answered) == answered' + Owed(pending, answered);
        assert Flush(pending, answered, now) == [SyntheticResult(pending[0], now)] + tail;
        RepairReadsResult(SyntheticResult(pending[0], now), tail, rest, pending', answered', now');
      }
    }
  }

  /** What is pending after a user message or a kept reply. */
  function PendingAfter(m: Message): (pending: seq<Block>) {
    if m.role.Assistant? then ToolCalls(m.content) else []
  }

  lemma RepairAtTurn(m: Message, rest: seq<Message>, pending: seq<Block>, answered: set<string>, now: int)
    requires forall c <- pending :: c.ToolCall?
    requires m.role.User? || (m.role.Assistant? && !Failed(m))
    ensures Repair([m] + rest, pending, answered, now)
         == Flush(pending, answered, now) + [m] + Repair(rest, PendingAfter(m), {}, now)
  {
    StartsWith(m, rest);
  }

  lemma AgainAtTurn(m: Message, tail: seq<Message>, pending: seq<Block>, answered: set<string>, now: int,
                    pending': seq<Block>, answered': set<string>, now': int)
    requires (forall c <- pending :: c.ToolCall?) && (forall c <- pending' :: c.ToolCall?)
    requires Owed(pending', answered') == Owed(pending, answered)
    requires m.role.User? || (m.role.Assistant? && !Failed(m))
    ensures Repair(Flush(pending, answered, now) + ([m] + tail), pending', answered', now')
         == Flush(pending, answered, now) + ([m] + Repair(tail, PendingAfter(m), {}, now'))
  {
    var settled := answered' + Owed(pending, answered);
    RepairReadsFlush(pending, answered, now, [m] + tail, pending', answered', now');
    RepairAtTurn(m, tail, pending', settled, now');
    assert Owed(pending', settled) == {};
    NothingOwedNothingFlushed(pending', settled, now');
    assert [] + [m] + Repair(tail, PendingAfter(m), {}, now') == [m] + Repair(tail, PendingAfter(m), {}, now');
  }

  /** Repairing a repaired transcript changes nothing, whatever the clock says. */
  lemma {:induction false} RepairAgain(ms: seq<Message>, pending: seq<Block>, answered: set<string>, now: int,
                                       pending': seq<Block>, answered': set<string>, now': int)
    requires (forall c <- pending :: c.ToolCall?) && (forall c <- pending' :: c.ToolCall?)
    requires Owed(pending', answered') == Owed(pending, answered)
    ensures var out := Repair(ms, pending, answered, now); Repair(out, pending', answered', now') == out
    decreases |ms|
  {
    var settled := answered' + Owed(pending, answered);
    assert Owed(pending', settled) == {};
    assert Owed([], {}) == {};
    if ms == [] {
      var flush := Flush(pending, answered, now);
      NothingOwedNothingFlushed(pending', settled, now');
      RepairReadsFlush(pending, answered, now, [], pending', answered', now');
      assert flush + [] == flush;
    } else {
      var m, rest := ms[0], ms[1..];
      match m.role
      case ToolResult =>
        assert Owed(pending', answered' + {m.toolCallID}) == Owed(pending', answered') - {m.toolCallID};
        assert Owed(pending, answered + {m.toolCallID}) == Owed(pending, answered) - {m.toolCallID};
        RepairAgain(rest, pending, answered + {m.toolCallID}, now, pending', answered' + {m.toolCallID}, now');
        StartsWith(m, Repair(rest, pending, answered + {m.toolCallID}, now));
      case OtherRole(_) =>
        RepairAgain(rest, pending, answered, now, pending', answered', now');
        StartsWith(m, Repair(rest, pending, answered, now));
      case User =>
        RepairAgain(rest, [], {}, now, [], {}, now');
        AgainAtTurn(m, Repair(rest, [], {}, now), pending, answered, now, pending', answered', now');
        Associate(Flush(pending, answered, now), m, Repair(rest, [], {}, now));
      case Assistant =>
        if Failed(m) {
          RepairAgain(rest, [], {}, now, pending', settled, now');
          RepairReadsFlush(pending, answered, now, Repair(rest, [], {}, now), pending', answered', now');
        } else {
          var calls := ToolCalls(m.content);
          RepairAgain(rest, calls, {}, now, calls, {}, now');
          AgainAtTurn(m, Repair(rest, calls, {}, now), pending, answered, now, pending', answered', now');
          Associate(Flush(pending, answered, now), m, Repair(rest, calls, {}, now));
        }
    }
  }

  lemma RepairIsIdempotent(ms: seq<Message>, now: int, now': int)
    ensures Repair(Repair(ms, [], {}, now), [], {}, now') == Repair(ms, [], {}, now)
  {
    RepairAgain(ms, [], {}, now, [], {}, now');
  }

  // ---- renaming keeps calls and results together ----------------------------------

  function Lookup(ids: map<string, string>, id: string): string {
    if id in ids then ids[id] else id
  }

  function Image(open: set<string>, ids: map<string, string>): set<string> {
    set id | id in open :: Lookup(ids, id)
  }

  /** Every id is called by one assistant message only. */
  ghost predicate UniqueCalls(seen: set<string>, ms: seq<Message>)
    decreases |ms|
  {
    ms == [] ||
    if ms[0].role.Assistant?
    then Elements(Calls(ms[0])) !! seen && UniqueCalls(seen + Elements(Calls(ms[0])), ms[1..])
    else UniqueCalls(seen, ms[1..])
  }

  ghost predicate InjectiveOn(m: Message, model: Model, normalize: Option<Normalizer>) {
    forall a <- Calls(m), b <- Calls(m) ::
      RenamedID(a, m, model, normalize) == RenamedID(b, m, model, normalize) ==> a == b
  }

  /** The normaliser keeps the calls of each reply apart. */
  ghost predicate InjectiveRenames(ms: seq<Message>, model: Model, normalize: Option<Normalizer>) {
    forall m <- ms | m.role.Assistant? && !Failed(m) :: InjectiveOn(m, model, normalize)
  }

  lemma RewrittenCall(b: Block, tail: seq<Block>, m: Message, model: Model, normalize: Option<Normalizer>)
    ensures ToolCalls(RewriteBlock(b, m, model, normalize) + tail)
         == (if b.ToolCall? then RewriteBlock(b, m, model, normalize) else []) + ToolCalls(tail)
    ensures b.ToolCall? ==>
      var out := RewriteBlock(b, m, model, normalize);
      |out| == 1 && out[0].ToolCall? && out[0].id == RenamedID(b.id, m, model, normalize)
  {
    var head := RewriteBlock(b, m, model, normalize);
    if head == [] {
      assert head + tail == tail;
    } else {
      assert (head + tail)[0] == head[0] && (head + tail)[1..] == tail;
    }
  }

  /** A rewritten reply calls its old ids, renamed, in the same order. */
  lemma {:induction false} RewrittenCalls(content: seq<Block>, m: Message, model: Model, normalize: Option<Normalizer>)
    ensures var before, after := ToolCalls(content), ToolCalls(RewriteContent(content, m, model, normalize));
            && |after| == |before|
            && forall k | 0 <= k < |before| :: after[k].id == RenamedID(before[k].id, m, model, normalize)
  {
    if content != [] {
      RewrittenCalls(content[1..], m, model, normalize);
      RewrittenCall(content[0], RewriteContent(content[1..], m, model, normalize), m, model, normalize);
    }
  }

  lemma {:induction false} RecordedRenames(content: seq<Block>, m: Message, model: Model, normalize: Option<Normalizer>,
                                           ids: map<string, string>, x: string)
    ensures var after := RecordRenames(content, m, model, normalize, ids);
            && (x !in CallIDs(ToolCalls(content)) ==> (x in after <==> x in ids) && Lookup(after, x) == Lookup(ids, x))
            && (x in CallIDs(ToolCalls(content)) && Lookup(ids, x) in {x, RenamedID(x, m, model, normalize)} ==>
                  Lookup(after, x) == RenamedID(x, m, model, normalize))
  {
    if content != [] {
      var next := RecordRename(content[0], m, model, normalize, ids);
      RecordedRenames(content[1..], m, model, normalize, next, x);
      var calls := CallIDs(ToolCalls(content));
      var rest := CallIDs(ToolCalls(content[1..]));
      assert calls == (if content[0].ToolCall? then [content[0].id] else []) + rest;
    }
  }

  lemma RenamesOfFreshCalls(m: Message, model: Model, normalize: Option<Normalizer>, ids: map<string, string>,
                            seen: set<string>)
    requires m.role.Assistant? && ids.Keys <= seen && Elements(Calls(m)) !! seen
    ensures var after := RenamesAfter(m, model, normalize, ids);
            && after.Keys <= seen + Elements(Calls(m))
            && (forall x <- Calls(m) :: Lookup(after, x) == RenamedID(x, m, model, normalize))
            && (forall x :: x !in Calls(m) ==> Lookup(after, x) == Lookup(ids, x))
  {
    var after := RenamesAfter(m, model, normalize, ids);
    forall x
      ensures x in Calls(m) ==> Lookup(after, x) == RenamedID(x, m, model, normalize)
      ensures x !in Calls(m) ==> (x in after <==> x in ids) && Lookup(after, x) == Lookup(ids, x)
    {
      RecordedRenames(m.content, m, model, normalize, ids, x);
      if x in Calls(m) { assert x in Elements(Calls(m)); }
    }
    forall x | x in after.Keys ensures x in seen + Elements(Calls(m)) {
      if x !in Calls(m) { assert x in ids; }
    }
  }

  /** For any normaliser: a result still names the call it named before. */
  lemma {:induction false} RenamesAgree(ms: seq<Message>, i: nat, j: nat, model: Model, normalize: Option<Normalizer>,
                                        ids: map<string, string>, seen: set<string>)
    requires i < j < |ms| && ms[i].role.Assistant? && ms[j].role.ToolResult?
    requires ms[j].toolCallID in Calls(ms[i])
    requires ids.Keys <= seen && UniqueCalls(seen, ms)
    ensures Rewrite(ms, model, normalize, ids)[j].toolCallID
         == RenamedID(ms[j].toolCallID, ms[i], model, normalize)
    ensures Rewrite(ms, model, normalize, ids)[j].toolCallID in Calls(Rewrite(ms, model, normalize, ids)[i])
  {
    var next := RenamesAfter(ms[0], model, normalize, ids);
    var calls := if ms[0].role.Assistant? then Elements(Calls(ms[0])) else {};
    if ms[0].role.Assistant? { RenamesOfFreshCalls(ms[0], model, normalize, ids, seen); }
    if i > 0 {
      assert seen + {} == seen;
      RenamesAgree(ms[1..], i - 1, j - 1, model, normalize, next, seen + calls);
    } else {
      var id := ms[j].toolCallID;
      RenamePersists(ms[1..], j - 1, model, normalize, next, seen + calls);
      RewrittenCalls(ms[0].content, ms[0], model, normalize);
      var k :| 0 <= k < |Calls(ms[0])| && Calls(ms[0])[k] == id;
      assert Calls(Rewrite(ms, model, normalize, ids)[0])[k] == RenamedID(id, ms[0], model, normalize);
    }
  }

  lemma {:induction false} RenamePersists(ms: seq<Message>, j: nat, model: Model, normalize: Option<Normalizer>,
                                          ids: map<string, string>, seen: set<string>)
    requires j < |ms| && ms[j].role.ToolResult? && ms[j].toolCallID in seen
    requires ids.Keys <= seen && UniqueCalls(seen, ms)
    ensures Rewrite(ms, model, normalize, ids)[j].toolCallID == Lookup(ids, ms[j].toolCallID)
  {
    if j > 0 {
      var calls := if ms[0].role.Assistant? then Elements(Calls(ms[0])) else {};
      if ms[0].role.Assistant? {
        RenamesOfFreshCalls(ms[0], model, normalize, ids, seen);
        assert ms[j].toolCallID !in Elements(Calls(ms[0]));
      }
      assert seen + {} == seen;
      RenamePersists(ms[1..], j - 1, model, normalize, RenamesAfter(ms[0], model, normalize, ids), seen + calls);
    }
  }

  /** The first pass keeps a transcript orderly. */
  lemma {:induction false} RewriteKeepsOrder(ms: seq<Message>, open: set<string>, model: Model,
                                             normalize: Option<Normalizer>,
                                             ids: map<string, string>, seen: set<string>)
    requires Orderly(open, ms) && open <= seen && ids.Keys <= seen && UniqueCalls(seen, ms)
    requires InjectiveRenames(ms, model, normalize)
    requires forall a <- open, b <- open :: Lookup(ids, a) == Lookup(ids, b) ==> a == b
    ensures Orderly(Image(open, ids), Rewrite(ms, model, normalize, ids))
  {
    if ms != [] {
      var m, rest := ms[0], ms[1..];
      var out := Rewrite(ms, model, normalize, ids);
      var next := RenamesAfter(m, model, normalize, ids);
      assert out[0] == RewriteMessage(m, model, normalize, ids) && out[1..] == Rewrite(rest, model, normalize, next);
      assert forall x <- rest :: x in ms;
      match m.role
      case ToolResult =>
        RewriteKeepsOrder(rest, open - {m.toolCallID}, model, normalize, ids, seen);
        assert Image(open, ids) - {Lookup(ids, m.toolCallID)} == Image(open - {m.toolCallID}, ids);
      case User =>
        RewriteKeepsOrder(rest, {}, model, normalize, ids, seen);
        assert Image({}, ids) == {};
      case OtherRole(_) =>
        RewriteKeepsOrder(rest, open, model, normalize, ids, seen);
      case Assistant =>
        RenamesOfFreshCalls(m, model, normalize, ids, seen);
        RewrittenCalls(m.content, m, model, normalize);
        assert InjectiveOn(m, model, normalize) || Failed(m);
        RewriteKeepsOrder(rest, Opens(m), model, normalize, next, seen + Elements(Calls(m)));
        RewrittenOpens(m, model, normalize, ids, next);
    }
  }

  lemma RewrittenOpens(m: Message, model: Model, normalize: Option<Normalizer>, ids: map<string, string>,
                       next: map<string, string>)
    requires m.role.Assistant? && (Failed(m) || (NoDuplicates(Calls(m)) && InjectiveOn(m, model, normalize)))
    requires forall x <- Calls(m) :: Lookup(next, x) == RenamedID(x, m, model, normalize)
    ensures var r := RewriteMessage(m, model, normalize, ids);
            (Failed(r) || NoDuplicates(Calls(r))) && Opens(r) == Image(Opens(m), next)
  {
    var r := RewriteMessage(m, model, normalize, ids);
    RewrittenCalls(m.content, m, model, normalize);
    var before, after := Calls(m), Calls(r);
    if !Failed(m) {
      forall i, j | 0 <= i < j < |after| ensures after[i] != after[j] {
        assert before[i] in before && before[j] in before && before[i] != before[j];
      }
      forall x ensures x in Opens(r) <==> x in Image(Opens(m), next) {
        if x in Opens(r) {
          var k :| 0 <= k < |after| && after[k] == x;
          assert before[k] in Opens(m) && Lookup(next, before[k]) == x;
        }
        if x in Image(Opens(m), next) {
          var y :| y in Opens(m) && Lookup(next, y) == x;
          var k :| 0 <= k < |before| && before[k] == y;
          assert after[k] == x;
        }
      }
    } else {
      assert Image({}, next) == {};
    }
  }

  /** The whole rewrite: an orderly transcript with unique call ids becomes a
      legal one, for every model and every normaliser that keeps the calls of
      each reply apart. */
  lemma TransformedIsLegal(ms: seq<Message>, model: Model, normalize: Option<Normalizer>, now: int)
    requires Orderly({}, ms) && UniqueCalls({}, ms) && InjectiveRenames(ms, model, normalize)
    ensures Legal({}, Transformed(ms, model, normalize, now))
  {
    RewriteKeepsOrder(ms, {}, model, normalize, map[], {});
    assert Image({}, map[]) == {} && Owed([], {}) == {};
    RepairIsLegalIffOrderly(Rewrite(ms, model, normalize, map[]), [], {}, now);
  }
}
