/** The event sink that stands between the agent loop and the session: it records
    which messages the message_end handlers replaced, and rewrites the message
    list of the final event to what was really persisted. */
module Persistence {
  import opened Messages
  import opened AgentMessages
  import opened LoopEvents

  /** A message as the sink sees it: its value and, when it is passed by
      reference, a non-zero address. */
  datatype Tracked = Tracked(message: AgentMessage, pointer: nat)

  /** A message with the diagnostics that were added to it: the positions of the handlers that
      failed or wanted another role.  Only provider messages can carry them. */
  datatype Annotated = Annotated(message: AgentMessage, diagnostics: seq<nat>)

  function Plain(m: AgentMessage): Annotated {
    Annotated(m, [])
  }

  /** One message_end: what the loop ended, what the handlers made of it, and
      whether they touched it. */
  datatype Decision = Decision(original: Tracked, final: Annotated, changed: bool)

  datatype Replacement = Replacement(index: nat, identity: string, pointer: nat, replacement: Annotated)

  function RoleName(r: Role): string {
    match r
    case User => "user"
    case Assistant => "assistant"
    case ToolResult => "toolResult"
    case OtherRole(name) => name
  }

  function Identity(m: AgentMessage): string {
    if !m.LLM? then ""
    else if m.message.responseID != "" then RoleName(m.message.role) + ":response:" + m.message.responseID
    else if m.message.toolCallID != "" then RoleName(m.message.role) + ":tool:" + m.message.toolCallID
    else ""
  }

  /** The replacements recorded after the decisions of `log`. */
  function Recorded(log: seq<Decision>): seq<Replacement> {
    if log == [] then []
    else
      var n, d := |log| - 1, log[|log| - 1];
      Recorded(log[..n])
        + (if d.changed then [Replacement(n, Identity(d.original.message), d.original.pointer, d.final)] else [])
  }

  function Persisted(log: seq<Decision>): (out: seq<Annotated>)
    ensures |out| == |log| && forall i | 0 <= i < |log| :: out[i] == log[i].final
  {
    seq(|log|, i requires 0 <= i < |log| => log[i].final)
  }

  function Originals(log: seq<Decision>): (out: seq<Tracked>)
    ensures |out| == |log| && forall i | 0 <= i < |log| :: out[i] == log[i].original
  {
    seq(|log|, i requires 0 <= i < |log| => log[i].original)
  }

  /** Handlers that leave a message alone leave it as it was. */
  ghost predicate Honest(log: seq<Decision>) {
    forall i | 0 <= i < |log| && !log[i].changed :: log[i].final == Plain(log[i].original.message)
  }

  /** Messages that have an identity, or an address, have one of their own. */
  ghost predicate Distinct(log: seq<Decision>) {
    forall i, j | 0 <= i < j < |log| ::
      && (Identity(log[i].original.message) == ""
          || Identity(log[i].original.message) != Identity(log[j].original.message))
      && (log[i].original.pointer == 0 || log[i].original.pointer != log[j].original.pointer)
  }

  /** The messages have an identity, or an address, in common. */
  predicate Confusable(a: Tracked, b: Tracked) {
    || (Identity(a.message) != "" && Identity(a.message) == Identity(b.message))
    || (a.pointer != 0 && a.pointer == b.pointer)
  }

  /** A message that was left alone can be taken for a later one that was not. */
  ghost predicate Mistakes(log: seq<Decision>, i: nat, j: nat) {
    i < j < |log| && !log[i].changed && log[j].changed && Confusable(log[i].original, log[j].original)
  }

  ghost predicate Unmistaken(log: seq<Decision>) {
    forall i: nat, j: nat :: !Mistakes(log, i, j)
  }

  lemma DistinctIsUnmistaken(log: seq<Decision>)
    requires Distinct(log)
    ensures Unmistaken(log)
  {
    forall i: nat, j: nat ensures !Mistakes(log, i, j) {}
  }

  /** The first message that is taken for another, if any. */
  lemma {:induction false} FirstMistake(log: seq<Decision>, from: nat) returns (n: nat)
    requires from <= |log|
    ensures from <= n <= |log| && forall i: nat, j: nat | from <= i < n :: !Mistakes(log, i, j)
    ensures n < |log| ==> exists j: nat :: Mistakes(log, n, j)
    decreases |log| - from
  {
    if from == |log| || exists j: nat :: Mistakes(log, from, j) {
      n := from;
    } else {
      n := FirstMistake(log, from + 1);
    }
  }

  /** Replacement `r` was recorded for decision `i`. */
  predicate RecordedFor(r: Replacement, log: seq<Decision>, i: nat) {
    && i < |log| && log[i].changed
    && r == Replacement(i, Identity(log[i].original.message), log[i].original.pointer, log[i].final)
  }

  lemma {:induction false} RecordedMatchesLog(log: seq<Decision>)
    ensures forall k | 0 <= k < |Recorded(log)| :: RecordedFor(Recorded(log)[k], log, Recorded(log)[k].index)
    ensures forall i | 0 <= i < |log| && log[i].changed ::
      exists k | 0 <= k < |Recorded(log)| :: RecordedFor(Recorded(log)[k], log, i)
  {
    if log != [] {
      var n := |log| - 1;
      var before, after := Recorded(log[..n]), Recorded(log);
      RecordedMatchesLog(log[..n]);
      forall k | 0 <= k < |after| ensures RecordedFor(after[k], log, after[k].index) {
        if k < |before| { assert RecordedFor(before[k], log[..n], before[k].index); }
      }
      forall i | 0 <= i < |log| && log[i].changed
        ensures exists k | 0 <= k < |after| :: RecordedFor(after[k], log, i)
      {
        if i < n {
          var k :| 0 <= k < |before| && RecordedFor(before[k], log[..n], i);
          assert RecordedFor(after[k], log, i);
        } else {
          assert RecordedFor(after[|before|], log, i);
        }
      }
    }
  }

  // ---- the message_end handlers -----------------------------------------------------

  datatype HandlerResult = HandlerFails | NoReplacement | Replaces(message: AgentMessage)

  type Handler = AgentMessage -> HandlerResult

  predicate SameRole(current: AgentMessage, replacement: AgentMessage) {
    current.LLM? && replacement.LLM? && current.message.role == replacement.message.role
  }

  /** What a handler makes of the message the previous handlers left. */
  function AfterHandler(current: AgentMessage, h: Handler): AgentMessage {
    match h(current)
    case Replaces(m) => if SameRole(current, m) then m else current
    case _ => current
  }

  function AfterHandlers(m: AgentMessage, handlers: seq<Handler>): AgentMessage {
    if handlers == [] then m
    else AfterHandler(AfterHandlers(m, handlers[..|handlers| - 1]), handlers[|handlers| - 1])
  }

  /** The handlers that failed or tried to change the role, by position. */
  function Complaints(m: AgentMessage, handlers: seq<Handler>): seq<nat> {
    if handlers == [] then []
    else
      var n := |handlers| - 1;
      var current := AfterHandlers(m, handlers[..n]);
      var result := handlers[n](current);
      Complaints(m, handlers[..n])
        + (if result.HandlerFails? || (result.Replaces? && !SameRole(current, result.message)) then [n] else [])
  }

  /** No handler had anything to say. */
  predicate Quiet(m: AgentMessage, handlers: seq<Handler>) {
    handlers == [] ||
    var before := handlers[..|handlers| - 1];
    Quiet(m, before) && handlers[|handlers| - 1](AfterHandlers(m, before)).NoReplacement?
  }

  lemma {:induction false} QuietHandlersChangeNothing(m: AgentMessage, handlers: seq<Handler>)
    ensures Quiet(m, handlers) ==> AfterHandlers(m, handlers) == m && Complaints(m, handlers) == []
    ensures AfterHandlers(m, handlers) == m || SameRole(m, AfterHandlers(m, handlers))
  {
    if handlers != [] { QuietHandlersChangeNothing(m, handlers[..|handlers| - 1]); }
  }

  /** What the handlers make of a message, with their complaints noted on it. */
  function Annotate(m: AgentMessage, handlers: seq<Handler>): Annotated {
    var final := AfterHandlers(m, handlers);
    Annotated(final, if final.LLM? then Complaints(m, handlers) else [])
  }

  /** Handlers compose, each seeing what the one before it left; a failure or a
      change of role is noted on the message by position and has no other effect. */
  method EmitMessageEndChain(m: AgentMessage, handlers: seq<Handler>) returns (final: Annotated, changed: bool)
    ensures final == Annotate(m, handlers)
    ensures changed <==> !Quiet(m, handlers)
    ensures !changed ==> final == Plain(m)
    ensures final.message == m || SameRole(m, final.message)
  {
    var current, diagnostics: seq<nat> := m, [];
    changed := false;
    for i := 0 to |handlers|
      invariant current == AfterHandlers(m, handlers[..i])
      invariant changed <==> !Quiet(m, handlers[..i])
      invariant diagnostics == Complaints(m, handlers[..i])
    {
      assert handlers[..i + 1][..i] == handlers[..i];
      var result := handlers[i](current);
      match result {
        case HandlerFails =>
          diagnostics, changed := diagnostics + [i], true;
        case NoReplacement =>
        case Replaces(replacement) =>
          if SameRole(current, replacement) {
            current := replacement;
          } else {
            diagnostics := diagnostics + [i];
          }
          changed := true;
      }
    }
    assert handlers[..|handlers|] == handlers;
    QuietHandlersChangeNothing(m, handlers);
    final := Annotated(current, if current.LLM? then diagnostics else []);
  }

  predicate IsAssistant(m: AgentMessage) {
    m.LLM? && m.message.role.Assistant?
  }

  class EventSinkState {
    var messageIndex: nat
    var replacements: seq<Replacement>
    var lastAssistant: Option<Message>
    var session: seq<Annotated>
    ghost var log: seq<Decision>

    ghost predicate Valid() reads this {
      messageIndex == |log| && replacements == Recorded(log)
    }

    constructor ()
      ensures Valid() && log == [] && lastAssistant == None && session == []
    {
      messageIndex, replacements, lastAssistant, session, log := 0, [], None, [], [];
    }

    method RecordMessageEnd(original: Tracked, final: Annotated, changed: bool)
      requires Valid()
      modifies this
      ensures Valid() && log == old(log) + [Decision(original, final, changed)] && session == old(session)
      ensures lastAssistant == if IsAssistant(final.message) then Some(final.message.message) else old(lastAssistant)
    {
      var index := messageIndex;
      messageIndex := messageIndex + 1;
      if IsAssistant(final.message) {
        lastAssistant := Some(final.message.message);
      }
      log := log + [Decision(original, final, changed)];
      assert log[..|log| - 1] == old(log);
      if changed {
        replacements := replacements + [Replacement(index, Identity(original.message), original.pointer, final)];
      }
    }

    /** The first unused replacement that matches by identity, else by address, else
        by position. */
    method ReplacementForMessage(index: nat, m: Tracked, used: array<bool>) returns (found: Option<nat>)
      requires used.Length == |replacements|
      modifies used
      ensures found.Some? ==>
        && found.value < |replacements| && !old(used[found.value])
        && Rank(replacements[found.value], index, m) < 3
        && used[..] == old(used[..])[found.value := true]
      ensures found.None? ==> used[..] == old(used[..])
      ensures forall k | 0 <= k < |replacements| && !old(used[k]) ::
        if found.None? then Rank(replacements[k], index, m) == 3
        else Rank(replacements[found.value], index, m) < Rank(replacements[k], index, m)
             || (Rank(replacements[found.value], index, m) == Rank(replacements[k], index, m) && found.value <= k)
    {
      var identity := Identity(m.message);
      if identity != "" {
        for k := 0 to |replacements|
          invariant used[..] == old(used[..])
          invariant forall j | 0 <= j < k && !used[j] :: replacements[j].identity != identity
        {
          if !used[k] && replacements[k].identity == identity {
            used[k] := true;
            return Some(k);
          }
        }
      }
      if m.pointer != 0 {
        for k := 0 to |replacements|
          invariant used[..] == old(used[..])
          invariant forall j | 0 <= j < k && !used[j] :: replacements[j].pointer != m.pointer
        {
          if !used[k] && replacements[k].pointer == m.pointer {
            used[k] := true;
            return Some(k);
          }
        }
      }
      for k := 0 to |replacements|
        invariant used[..] == old(used[..])
        invariant forall j | 0 <= j < k && !used[j] :: replacements[j].index != index
      {
        if !used[k] && replacements[k].index == index {
          used[k] := true;
          return Some(k);
        }
      }
      return None;
    }

    /** The messages of the final event become exactly the messages that were persisted, unless
        one that was left alone can be taken for a later one that was not: then one such
        message is reported as the other was persisted. */
    method MapAgentEndMessages(messages: seq<Tracked>) returns (mapped: seq<Annotated>)
      requires Valid()
      ensures |mapped| == |messages|
      ensures Honest(log) && messages == Originals(log) ==>
        if Unmistaken(log) then mapped == Persisted(log)
        else exists i: nat, j: nat :: Mistakes(log, i, j) && mapped[i] == log[j].final
    {
      ghost var expected := Honest(log) && messages == Originals(log);
      ghost var n := FirstMistake(log, 0);
      RecordedMatchesLog(log);
      mapped := seq(|messages|, i requires 0 <= i < |messages| => Plain(messages[i].message));
      if replacements == [] {
        return;
      }
      var used := new bool[|replacements|](_ => false);
      for i := 0 to |messages|
        invariant |mapped| == |messages|
        invariant forall j | i <= j < |messages| :: mapped[j] == Plain(messages[j].message)
        invariant expected && i <= n ==> forall j | 0 <= j < i :: mapped[j] == log[j].final
        invariant expected && i <= n ==> forall k | 0 <= k < |replacements| :: used[k] <==> replacements[k].index < i
        invariant expected && n < i ==> exists j: nat :: Mistakes(log, n, j) && mapped[n] == log[j].final
      {
        ghost var before := used[..];
        var found := ReplacementForMessage(i, messages[i], used);
        if expected && i <= n { TheRightReplacement(log, i, before, found); }
        if found.Some? {
          mapped := mapped[i := replacements[found.value].replacement];
        }
      }
    }

    /** The sink of one run: every ended message goes through the handlers and into the
        session, and the final event through the map. */
    method ConsumeRun(events: seq<Event>, address: nat -> nat, handlers: seq<Handler>)
      returns (reported: Option<seq<Annotated>>)
      requires Valid() && log == [] && session == []
      modifies this
      ensures log == Decisions(Ended(events), address, handlers) && session == Persisted(log) && Valid()
      ensures Trace(events).stage.Finished? && Unmistaken(log) ==> reported == Some(session)
    {
      reported := None;
      assert Ended(events[..0]) == [];
      hide Ended;
      hide Trace;
      for i := 0 to |events|
        invariant Valid() && log == Decisions(Ended(events[..i]), address, handlers) && session == Persisted(log)
        invariant i > 0 && events[i - 1] == AgentEnd(Ended(events[..i])) && Unmistaken(log) ==>
                    reported == Some(session)
      {
        EndedNext(events, i);
        if events[i].MessageEnd? {
          DecisionsGrow(Ended(events[..i]), events[i].message, address, handlers);
          RecordEnd(events[i].message, address, handlers);
        } else if events[i].AgentEnd? {
          var mapped := ReportEnd(events[i].messages, Ended(events[..i]), address, handlers);
          reported := Some(mapped);
        }
      }
      assert events[..|events|] == events;
      if Trace(events).stage.Finished? { AgentEndReportsAll(events); }
    }

    /** The final event: its messages as they were persisted. */
    method ReportEnd(messages: seq<AgentMessage>, ghost ended: seq<AgentMessage>, address: nat -> nat,
                     ghost handlers: seq<Handler>)
      returns (mapped: seq<Annotated>)
      requires Valid() && log == Decisions(ended, address, handlers)
      ensures messages == ended && Unmistaken(log) ==> mapped == Persisted(log)
    {
      var tracked := seq(|messages|, k requires 0 <= k < |messages| => Tracked(messages[k], address(k)));
      DecisionsAreHonest(ended, address, handlers);
      assert messages == ended ==> tracked == Originals(log);
      mapped := MapAgentEndMessages(tracked);
    }

    /** One ended message: handlers, record, session. */
    method RecordEnd(m: AgentMessage, address: nat -> nat, handlers: seq<Handler>)
      requires Valid() && session == Persisted(log)
      modifies this
      ensures Valid() && session == Persisted(log)
      ensures log == old(log) + [DecisionOn(m, address(|old(log)|), handlers)]
    {
      var final, changed := EmitMessageEndChain(m, handlers);
      RecordMessageEnd(Tracked(m, address(messageIndex)), final, changed);
      session := session + [final];
    }
  }

  function DecisionOn(m: AgentMessage, pointer: nat, handlers: seq<Handler>): Decision {
    Decision(Tracked(m, pointer), Annotate(m, handlers), !Quiet(m, handlers))
  }

  /** What the handlers decide on the messages a run ends, in order. */
  function Decisions(ended: seq<AgentMessage>, address: nat -> nat, handlers: seq<Handler>): (log: seq<Decision>)
    ensures |log| == |ended| && forall i | 0 <= i < |ended| :: log[i] == DecisionOn(ended[i], address(i), handlers)
  {
    seq(|ended|, i requires 0 <= i < |ended| => DecisionOn(ended[i], address(i), handlers))
  }

  lemma DecisionsAreHonest(ended: seq<AgentMessage>, address: nat -> nat, handlers: seq<Handler>)
    ensures Honest(Decisions(ended, address, handlers))
  {
    forall i | 0 <= i < |ended| && Quiet(ended[i], handlers) ensures Annotate(ended[i], handlers) == Plain(ended[i]) {
      QuietHandlersChangeNothing(ended[i], handlers);
    }
  }

  lemma EndedNext(events: seq<Event>, i: nat)
    requires i < |events|
    ensures Ended(events[..i + 1])
         == if events[i].MessageEnd? then Ended(events[..i]) + [events[i].message] else Ended(events[..i])
  {
    assert events[..i + 1][..i] == events[..i];
  }

  lemma DecisionsGrow(ended: seq<AgentMessage>, m: AgentMessage, address: nat -> nat, handlers: seq<Handler>)
    ensures Decisions(ended + [m], address, handlers)
         == Decisions(ended, address, handlers) + [DecisionOn(m, address(|ended|), handlers)]
  {
  }

  /** How well a replacement matches: by identity, by address, by position, not at all. */
  function Rank(r: Replacement, index: nat, m: Tracked): nat {
    if Identity(m.message) != "" && r.identity == Identity(m.message) then 0
    else if m.pointer != 0 && r.pointer == m.pointer then 1
    else if r.index == index then 2
    else 3
  }

  /** The first of the unused replacements that match best. */
  ghost predicate Best(rs: seq<Replacement>, i: nat, m: Tracked, used: seq<bool>, found: Option<nat>)
    requires |used| == |rs|
  {
    && (found.Some? ==> found.value < |rs| && !used[found.value] && Rank(rs[found.value], i, m) < 3)
    && forall k | 0 <= k < |rs| && !used[k] ::
         if found.None? then Rank(rs[k], i, m) == 3
         else Rank(rs[found.value], i, m) < Rank(rs[k], i, m)
              || (Rank(rs[found.value], i, m) == Rank(rs[k], i, m) && found.value <= k)
  }

  /** When the earlier messages used their own replacements, the best one left for a message is
      its own, and there is one exactly if it was changed; unless it can be taken for a later
      message, and then it is the replacement of such a one. */
  lemma TheRightReplacement(log: seq<Decision>, i: nat, used: seq<bool>, found: Option<nat>)
    requires i < |log| && |used| == |Recorded(log)| && Best(Recorded(log), i, log[i].original, used, found)
    requires forall k | 0 <= k < |used| :: used[k] <==> Recorded(log)[k].index < i
    ensures (forall j: nat :: !Mistakes(log, i, j)) ==>
      && (found.Some? <==> log[i].changed)
      && (found.Some? ==> RecordedFor(Recorded(log)[found.value], log, i))
      && forall k | 0 <= k < |used| :: (used[k] || found == Some(k)) <==> Recorded(log)[k].index < i + 1
    ensures (exists j: nat :: Mistakes(log, i, j)) ==>
      found.Some? && exists j: nat :: Mistakes(log, i, j) && Recorded(log)[found.value].replacement == log[j].final
  {
    RecordedMatchesLog(log);
    if log[i].changed {
      OwnIsBest(log, i, used, found);
    } else {
      var rs := Recorded(log);
      forall k | 0 <= k < |rs| ensures rs[k].index != i { assert RecordedFor(rs[k], log, rs[k].index); }
      if found.Some? {
        assert RecordedFor(rs[found.value], log, rs[found.value].index);
        assert Mistakes(log, i, rs[found.value].index);
      }
      if j: nat :| Mistakes(log, i, j) {
        var k :| 0 <= k < |rs| && RecordedFor(rs[k], log, j);
        assert !used[k] && Rank(rs[k], i, log[i].original) < 2;
      }
    }
  }

  /** A changed message finds its own replacement in front of all others left. */
  lemma OwnIsBest(log: seq<Decision>, i: nat, used: seq<bool>, found: Option<nat>)
    requires i < |log| && |used| == |Recorded(log)| && Best(Recorded(log), i, log[i].original, used, found)
    requires forall k | 0 <= k < |used| :: used[k] <==> Recorded(log)[k].index < i
    requires log[i].changed
    ensures found.Some? && RecordedFor(Recorded(log)[found.value], log, i)
    ensures forall k | 0 <= k < |used| :: (used[k] || found == Some(k)) <==> Recorded(log)[k].index < i + 1
  {
    var rs := Recorded(log);
    RecordedMatchesLog(log);
    RecordedAscends(log);
    var own :| 0 <= own < |rs| && RecordedFor(rs[own], log, i);
    assert !used[own] && Rank(rs[own], i, log[i].original) < 3;
    var f := found.value;
    assert rs[f].index >= i;
    forall k | 0 <= k < |rs| && rs[k].index == i ensures k == f { OneRecordEach(log, k, own); }
  }

  lemma {:induction false} RecordedAscends(log: seq<Decision>)
    ensures forall a, b | 0 <= a < b < |Recorded(log)| :: Recorded(log)[a].index < Recorded(log)[b].index
  {
    if log != [] {
      var n := |log| - 1;
      var before := Recorded(log[..n]);
      RecordedAscends(log[..n]);
      RecordedMatchesLog(log[..n]);
      assert forall k | 0 <= k < |before| :: RecordedFor(before[k], log[..n], before[k].index);
    }
  }

  lemma {:induction false} OneRecordEach(log: seq<Decision>, a: nat, b: nat)
    requires a < |Recorded(log)| && b < |Recorded(log)| && Recorded(log)[a].index == Recorded(log)[b].index
    ensures a == b
  {
    var n := |log| - 1;
    var before := Recorded(log[..n]);
    RecordedMatchesLog(log[..n]);
    if a < |before| && b < |before| {
      OneRecordEach(log[..n], a, b);
    } else {
      assert forall k | 0 <= k < |before| :: RecordedFor(before[k], log[..n], before[k].index);
    }
  }
}
