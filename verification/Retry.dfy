/** Retrying a reply that ended in a transient error: the backoff, the loop with its
    attempt counter and events, and the branch it leaves behind. */
module Retry {
  import opened Messages
  import opened AgentMessages
  import opened Compaction

  // ---- the backoff ------------------------------------------------------------------------

  const MAX_INT64: int := 0x7fff_ffff_ffff_ffff

  function Pow2(n: nat): (p: int)
    ensures p >= 1
  {
    if n == 0 then 1 else 2 * Pow2(n - 1)
  }

  /** The delay before an attempt, in nanoseconds, as 64-bit arithmetic computes it. */
  function Backoff(base: int, attempt: int): int {
    if attempt <= 1 || base <= 0 then base
    else if attempt > 62 then MAX_INT64
    else
      var multiplier := Pow2(attempt - 1);
      if base > MAX_INT64 / multiplier then MAX_INT64 else base * multiplier
  }

  function Min(a: int, b: int): int {
    if a <= b then a else b
  }

  lemma {:induction false} Pow2Adds(a: nat, b: nat)
    ensures Pow2(a + b) == Pow2(a) * Pow2(b)
  {
    if a > 0 {
      Pow2Adds(a - 1, b);
      assert 2 * (Pow2(a - 1) * Pow2(b)) == (2 * Pow2(a - 1)) * Pow2(b);
    }
  }

  lemma {:induction false} Pow2Grows(a: nat, b: nat)
    requires a <= b
    ensures Pow2(a) <= Pow2(b)
    decreases b
  {
    if a < b { Pow2Grows(a, b - 1); }
  }

  lemma Pow2Of62()
    ensures Pow2(62) == 0x4000_0000_0000_0000 && Pow2(63) == MAX_INT64 + 1
  {
    assert Pow2(8) == 256;
    Pow2Adds(8, 8);
    Pow2Adds(16, 16);
    Pow2Adds(32, 16);
    Pow2Adds(48, 8);
    Pow2Adds(56, 6);
    assert Pow2(6) == 64;
  }

  lemma ScaleKeepsOrder(base: int, low: int, high: int)
    requires base >= 0 && low <= high
    ensures base * low <= base * high
  {
  }

  lemma DivisionGuards(base: int, multiplier: int)
    requires multiplier > 0
    ensures base > MAX_INT64 / multiplier <==> base * multiplier > MAX_INT64
  {
    var q := MAX_INT64 / multiplier;
    assert MAX_INT64 == q * multiplier + MAX_INT64 % multiplier;
    if base > q {
      assert (q + 1) * multiplier == q * multiplier + multiplier;
      ScaleKeepsOrder(multiplier, q + 1, base);
    } else {
      ScaleKeepsOrder(multiplier, base, q);
    }
  }

  /** The backoff is the exponential saturated at the largest 64-bit duration, never
      overflows, and misses the formula only for one nanosecond at attempt 63. */
  lemma BackoffIsSaturatedExponential(base: int, attempt: int)
    requires 0 <= base <= MAX_INT64 && attempt >= 1
    ensures 0 <= Backoff(base, attempt) <= MAX_INT64
    ensures Backoff(base, attempt) == Min(MAX_INT64, base * Pow2(attempt - 1)) <==> !(base == 1 && attempt == 63)
  {
    Pow2Of62();
    if base == 0 {
    } else if attempt > 62 {
      Pow2Grows(62, attempt - 1);
      if attempt > 63 { Pow2Grows(63, attempt - 1); }
      ScaleKeepsOrder(base, Pow2(62), Pow2(attempt - 1));
      ScaleKeepsOrder(Pow2(attempt - 1), 1, base);
      if base >= 2 { ScaleKeepsOrder(Pow2(62), 2, base); }
    } else {
      DivisionGuards(base, Pow2(attempt - 1));
    }
  }

  /** Waiting never gets shorter from one attempt to a later one. */
  lemma BackoffIsMonotone(base: int, early: int, late: int)
    requires 0 <= base <= MAX_INT64 && 1 <= early <= late
    ensures Backoff(base, early) <= Backoff(base, late)
  {
    BackoffIsSaturatedExponential(base, early);
    BackoffIsSaturatedExponential(base, late);
    Pow2Grows(early - 1, late - 1);
    ScaleKeepsOrder(base, Pow2(early - 1), Pow2(late - 1));
    if base == 1 && early == 63 && late > 63 {
      Pow2Of62();
      Pow2Grows(63, late - 1);
    }
  }

  // ---- which reply is retried ---------------------------------------------------------------

  /** How overflow and transient errors are recognised. */
  datatype Recognisers = Recognisers(overflow: Message -> bool, transient: string -> bool)

  predicate Retryable(m: Message, r: Recognisers) {
    m.stopReason.Error? && m.errorMessage != "" && !r.overflow(m) && r.transient(m.errorMessage)
  }

  predicate Matches(a: Message, b: Message) {
    if a.responseID != "" || b.responseID != "" then a.responseID == b.responseID && a.responseID != ""
    else
      a.provider == b.provider && a.model == b.model && a.timestamp == b.timestamp
      && a.stopReason == b.stopReason && a.errorMessage == b.errorMessage
  }

  lemma MatchingIsEquivalence(a: Message, b: Message, c: Message)
    ensures Matches(a, a) && (Matches(a, b) ==> Matches(b, a)) && (Matches(a, b) && Matches(b, c) ==> Matches(a, c))
  {
  }

  predicate IsReply(e: Entry) {
    e.kind.MessageEntry? && e.kind.message.Some? && e.kind.message.value.LLM?
        && e.kind.message.value.message.role.Assistant?
  }

  predicate Holds(e: Entry, m: Message) {
    IsReply(e) && Matches(e.kind.message.value.message, m)
  }

  function LastReply(branch: seq<Entry>): (k: Option<nat>)
    ensures k.Some? ==> k.value < |branch| && IsReply(branch[k.value])
    ensures forall j | (if k.Some? then k.value < j else 0 <= j) && j < |branch| :: !IsReply(branch[j])
  {
    if branch == [] then None
    else if IsReply(branch[|branch| - 1]) then Some(|branch| - 1) else LastReply(branch[..|branch| - 1])
  }

  function LastHolding(branch: seq<Entry>, m: Message): (k: Option<nat>)
    ensures k.Some? ==> k.value < |branch| && Holds(branch[k.value], m)
    ensures forall j | (if k.Some? then k.value < j else 0 <= j) && j < |branch| :: !Holds(branch[j], m)
  {
    if branch == [] then None
    else if Holds(branch[|branch| - 1], m) then Some(|branch| - 1) else LastHolding(branch[..|branch| - 1], m)
  }

  /** The last entry of a reply on the branch, or else the last reply of all. */
  function EntryFor(branch: seq<Entry>, m: Message): (k: Option<nat>)
    ensures k.Some? ==> k.value < |branch| && IsReply(branch[k.value])
  {
    if LastHolding(branch, m).Some? then LastHolding(branch, m) else LastReply(branch)
  }

  method AssistantEntryForMessage(branch: seq<Entry>, target: Message) returns (found: Option<nat>)
    ensures found == EntryFor(branch, target)
  {
    found := None;
    var i := |branch|;
    while i > 0
      invariant 0 <= i <= |branch|
      invariant forall k | i <= k < |branch| :: !Holds(branch[k], target)
      invariant found.None? ==> forall k | i <= k < |branch| :: !IsReply(branch[k])
      invariant found.Some? ==>
        && i <= found.value < |branch| && IsReply(branch[found.value])
        && forall k | found.value < k < |branch| :: !IsReply(branch[k])
    {
      i := i - 1;
      if IsReply(branch[i]) {
        if Matches(branch[i].kind.message.value.message, target) { return Some(i); }
        if found.None? { found := Some(i); }
      }
    }
  }

  /** The branch without a reply and what follows it. */
  function Without(branch: seq<Entry>, m: Message): seq<Entry> {
    var k := EntryFor(branch, m);
    if k.Some? then branch[..k.value] else branch
  }

  // ---- the loop ------------------------------------------------------------------------------

  datatype Settings = Settings(enabled: bool, maxRetries: nat, baseDelay: int)

  datatype Wait = Waited | RetryAborted | RunCancelled

  /** A continuation appends what its run recorded and returns a reply, or fails. */
  datatype Attempt = Attempt(wait: Wait, branchFails: bool, moveFails: bool, appended: seq<Entry>,
                             reply: Option<Message>)

  datatype Event =
    | RetryStart(attempt: int, maxAttempts: int, delayMs: int, errorMessage: string)
    | RetryEnd(success: bool, attempt: int)

  function ErrorText(m: Message): string {
    if m.errorMessage != "" then m.errorMessage else "Unknown error"
  }

  function Started(m: Message, attempt: int, settings: Settings): Event {
    RetryStart(attempt, settings.maxRetries, Backoff(settings.baseDelay, attempt) / 1_000_000, ErrorText(m))
  }

  /** The start events of retrying some replies in turn. */
  function Starts(tried: seq<Message>, before: int, settings: Settings): (events: seq<Event>)
    ensures |events| == |tried| && forall k | 0 <= k < |tried| ::
      events[k] == Started(tried[k], before + k + 1, settings)
  {
    seq(|tried|, k requires 0 <= k < |tried| => Started(tried[k], before + k + 1, settings))
  }

  /** All that the attempts from the `n`th on append. */
  function Later(script: seq<Attempt>, n: nat): seq<Entry>
    decreases |script| - n
  {
    if n >= |script| then [] else script[n].appended + Later(script, n + 1)
  }

  ghost predicate Nowhere(entries: seq<Entry>, m: Message) {
    forall k | 0 <= k < |entries| :: !Holds(entries[k], m)
  }

  ghost predicate OnBranch(entries: seq<Entry>, m: Message) {
    exists k :: 0 <= k < |entries| && Holds(entries[k], m)
  }

  ghost predicate AllDistinct(entries: seq<Entry>) {
    forall i, j | 0 <= i < j < |entries| && IsReply(entries[i]) && IsReply(entries[j]) ::
      !Matches(entries[i].kind.message.value.message, entries[j].kind.message.value.message)
  }

  /** What retrying relies on: the reply is on the branch, every run records the reply it
      returns, and no two recorded replies match. */
  ghost predicate Recorded(branch: seq<Entry>, msg: Message, script: seq<Attempt>) {
    && OnBranch(branch, msg)
    && (forall n | 0 <= n < |script| && script[n].reply.Some? :: OnBranch(script[n].appended, script[n].reply.value))
    && AllDistinct(branch + Later(script, 0))
  }

  lemma CutKeeps(a: seq<Entry>, cut: seq<Entry>, c: seq<Entry>, m: Message)
    requires AllDistinct(a + cut + c) && (Nowhere(a + cut + c, m) || (cut != [] && Holds(cut[0], m)))
    ensures AllDistinct(a + c) && Nowhere(a + c, m)
  {
    var all, kept := a + cut + c, a + c;
    assert forall k | 0 <= k < |kept| :: kept[k] == all[if k < |a| then k else k + |cut|];
    if cut != [] && Holds(cut[0], m) {
      assert all[|a|] == cut[0];
      forall k | 0 <= k < |kept| && IsReply(kept[k])
        ensures !Matches(kept[k].kind.message.value.message, m)
      {
        var other := kept[k].kind.message.value.message;
        MatchingIsEquivalence(other, m, cut[0].kind.message.value.message);
        MatchingIsEquivalence(cut[0].kind.message.value.message, m, other);
        assert all[if k < |a| then k else k + |cut|] == kept[k];
      }
    }
  }

  /** Where the loop stands before its attempt `n`. */
  ghost predicate Cleared(branch: seq<Entry>, reply: Message, tried: seq<Message>, script: seq<Attempt>) {
    && OnBranch(branch, reply) && AllDistinct(branch + Later(script, |tried|))
    && forall k | 0 <= k < |tried| :: Nowhere(branch + Later(script, |tried|), tried[k])
  }

  /** The replies that have left the branch. */
  ghost predicate Gone(branch: seq<Entry>, tried: seq<Message>, n: int) {
    forall k | 0 <= k < n <= |tried| :: Nowhere(branch, tried[k])
  }

  lemma ClearedAreGone(branch: seq<Entry>, reply: Message, tried: seq<Message>, script: seq<Attempt>)
    requires Cleared(branch, reply, tried, script)
    ensures Gone(branch, tried, |tried|)
  {
    forall k | 0 <= k < |tried| ensures Nowhere(branch, tried[k]) {
      assert forall i | 0 <= i < |branch| :: (branch + Later(script, |tried|))[i] == branch[i];
    }
  }

  lemma AttemptClears(branch: seq<Entry>, k: nat, reply: Message, next: Message, tried: seq<Message>,
                      script: seq<Attempt>)
    requires Cleared(branch, reply, tried, script) && |tried| < |script|
    requires k < |branch| && Holds(branch[k], reply) && OnBranch(script[|tried|].appended, next)
    ensures Cleared(branch[..k] + script[|tried|].appended, next, tried + [reply], script)
  {
    var n := |tried|;
    var kept, cut, later := branch[..k], branch[k..], Later(script, n);
    assert branch + later == kept + cut + later;
    assert kept + script[n].appended + Later(script, n + 1) == kept + later;
    forall j | 0 <= j < n + 1
      ensures Nowhere(kept + later, (tried + [reply])[j])
    {
      CutKeeps(kept, cut, later, (tried + [reply])[j]);
    }
    CutKeeps(kept, cut, later, reply);
    var i :| 0 <= i < |script[n].appended| && Holds(script[n].appended[i], next);
    assert (kept + script[n].appended)[k + i] == script[n].appended[i];
  }

  lemma AttemptSettles(branch: seq<Entry>, after: seq<Entry>, k: nat, reply: Message, next: Message,
                       tried: seq<Message>, script: seq<Attempt>, ending: Ending)
    requires Cleared(branch, reply, tried, script) && |tried| < |script|
    requires ending.Answered? ==>
      && k < |branch| && Holds(branch[k], reply) && OnBranch(script[|tried|].appended, next)
      && after == branch[..k] + script[|tried|].appended
    requires ending.WaitAborted? ==> after == branch
    ensures ending.WaitAborted? ==> Gone(after, tried + [reply], |tried|)
    ensures ending.Answered? ==>
      Cleared(after, next, tried + [reply], script) && Gone(after, tried + [reply], |tried| + 1)
  {
    ClearedAreGone(branch, reply, tried, script);
    if ending.Answered? {
      AttemptClears(branch, k, reply, next, tried, script);
      ClearedAreGone(after, next, tried + [reply], script);
    }
  }

  datatype Ending = Answered | WaitAborted | RunEnded | Broke

  datatype Tried = Tried(ending: Ending, reply: Message, branch: seq<Entry>)

  /** What one attempt comes to, by its wait, the session and the continuation. */
  function TryOnce(branch: seq<Entry>, msg: Message, now: Attempt): Tried {
    match now.wait
    case RetryAborted => Tried(WaitAborted, msg, branch)
    case RunCancelled => Tried(RunEnded, msg, branch)
    case Waited =>
      if now.branchFails || (EntryFor(branch, msg).Some? && now.moveFails) then Tried(Broke, msg, branch)
      else
        var gone := Without(branch, msg) + now.appended;
        if now.reply.None? then Tried(Broke, msg, gone) else Tried(Answered, now.reply.value, gone)
  }

  datatype Retried = Retried(ending: Ending, reply: Message, branch: seq<Entry>, tried: seq<Message>)

  /** All attempts: as long as the reply is a transient error and one is left. */
  function Attempts(branch: seq<Entry>, msg: Message, attempt: int, script: seq<Attempt>, settings: Settings,
                    r: Recognisers): Retried
    decreases |script|
  {
    if !settings.enabled || !Retryable(msg, r) || attempt >= settings.maxRetries || script == []
    then Retried(Answered, msg, branch, [])
    else
      var t := TryOnce(branch, msg, script[0]);
      if !t.ending.Answered? then Retried(t.ending, t.reply, t.branch, [msg])
      else
        var rest := Attempts(t.branch, t.reply, attempt + 1, script[1..], settings, r);
        rest.(tried := [msg] + rest.tried)
  }

  ghost predicate GoesTo(tried: seq<Message>, rest: Retried, goal: Retried) {
    goal == rest.(tried := tried + rest.tried)
  }

  lemma AttemptsGo(branch: seq<Entry>, msg: Message, attempt: int, script: seq<Attempt>, n: nat, settings: Settings,
                   r: Recognisers, tried: seq<Message>, goal: Retried)
    requires n < |script| && settings.enabled && Retryable(msg, r) && attempt < settings.maxRetries
    requires GoesTo(tried, Attempts(branch, msg, attempt, script[n..], settings, r), goal)
    ensures var t := TryOnce(branch, msg, script[n]);
            if !t.ending.Answered? then goal == Retried(t.ending, t.reply, t.branch, tried + [msg])
            else GoesTo(tried + [msg], Attempts(t.branch, t.reply, attempt + 1, script[n + 1..], settings, r), goal)
  {
    assert script[n..][0] == script[n] && script[n..][1..] == script[n + 1..];
    var t := TryOnce(branch, msg, script[n]);
    var rest := Attempts(t.branch, t.reply, attempt + 1, script[n + 1..], settings, r);
    assert tried + ([msg] + rest.tried) == tried + [msg] + rest.tried;
  }

  lemma AttemptsEnd(branch: seq<Entry>, msg: Message, attempt: int, script: seq<Attempt>, settings: Settings,
                    r: Recognisers, tried: seq<Message>, goal: Retried)
    requires !settings.enabled || !Retryable(msg, r) || attempt >= settings.maxRetries
    requires GoesTo(tried, Attempts(branch, msg, attempt, script, settings, r), goal)
    ensures goal == Retried(Answered, msg, branch, tried)
  {
    assert tried + [] == tried;
  }

  lemma TriedBranch(branch: seq<Entry>, msg: Message, now: Attempt) returns (k: nat)
    requires OnBranch(branch, msg)
    ensures var t := TryOnce(branch, msg, now);
            && (t.ending.Answered? ==>
                  && now.reply == Some(t.reply) && k < |branch| && Holds(branch[k], msg)
                  && t.branch == branch[..k] + now.appended)
            && (t.ending.WaitAborted? ==> t.branch == branch)
  {
    k := LastHolding(branch, msg).value;
  }

  /** Each retried reply is a transient error and the answer to the one before. */
  ghost predicate Chain(tried: seq<Message>, msg: Message, script: seq<Attempt>, r: Recognisers) {
    && |tried| <= |script| && (tried != [] ==> tried[0] == msg)
    && (forall k | 0 <= k < |tried| :: Retryable(tried[k], r))
    && (forall k | 0 < k < |tried| :: script[k - 1].reply == Some(tried[k]))
  }

  /** The end event of a run that published starts or came with attempts behind it. */
  function Closing(ending: Ending, reply: Message, started: bool, last: int): seq<Event> {
    match ending
    case Answered =>
      if reply.stopReason.Error? then (if last > 0 then [RetryEnd(false, last)] else [])
      else if started then [RetryEnd(true, last)] else []
    case WaitAborted => [RetryEnd(false, last)]
    case _ => []
  }

  /** How each ending leaves the counter: a retry that is broken off by an error of the
      session or the continuation leaves it standing. */
  function CounterAfter(ending: Ending, msg: Message, before: int, attempts: int): int {
    match ending
    case Answered => if msg.stopReason.Error? then 0 else before
    case Broke => before + attempts
    case _ => 0
  }

  /** Retrying keeps to its attempts and gives up on an error only when it is switched off,
      the error is not transient, or no attempt is left; every retried reply is a transient
      error and the answer to the one before; and any other ending has its cause in the last
      attempt. */
  lemma {:induction false} RetryingGivesUpOnly(branch: seq<Entry>, msg: Message, attempt: int, script: seq<Attempt>,
                                               settings: Settings, r: Recognisers)
    requires 0 <= attempt && |script| >= settings.maxRetries - attempt
    ensures var d := Attempts(branch, msg, attempt, script, settings, r);
            && (d.tried != [] ==> attempt + |d.tried| <= settings.maxRetries)
            && Chain(d.tried, msg, script, r)
            && (d.ending.Answered? ==>
                  && (if d.tried == [] then d.reply == msg else script[|d.tried| - 1].reply == Some(d.reply))
                  && (d.reply.stopReason.Error? ==>
                        !settings.enabled || !Retryable(d.reply, r) || attempt + |d.tried| >= settings.maxRetries))
            && (!d.ending.Answered? ==> d.tried != [] && Causes(script[|d.tried| - 1], d.ending))
            && (d.ending.WaitAborted? ==> d.reply == d.tried[|d.tried| - 1])
    decreases |script|
  {
    if settings.enabled && Retryable(msg, r) && attempt < settings.maxRetries {
      var t := TryOnce(branch, msg, script[0]);
      if t.ending.Answered? {
        var rest := Attempts(t.branch, t.reply, attempt + 1, script[1..], settings, r);
        RetryingGivesUpOnly(t.branch, t.reply, attempt + 1, script[1..], settings, r);
        ChainInFront(msg, rest.tried, script, r);
      }
    }
  }

  /** Why an attempt ends without an answer. */
  predicate Causes(a: Attempt, ending: Ending) {
    match ending
    case Answered => false
    case WaitAborted => a.wait.RetryAborted?
    case RunEnded => a.wait.RunCancelled?
    case Broke => a.wait.Waited? && (a.branchFails || a.moveFails || a.reply.None?)
  }

  lemma ChainInFront(msg: Message, rest: seq<Message>, script: seq<Attempt>, r: Recognisers)
    requires script != [] && script[0].reply.Some? && Retryable(msg, r)
    requires Chain(rest, script[0].reply.value, script[1..], r)
    ensures Chain([msg] + rest, msg, script, r)
  {
    var all := [msg] + rest;
    forall k | 0 <= k < |all| ensures Retryable(all[k], r) { if k > 0 { assert all[k] == rest[k - 1]; } }
    forall k | 0 < k < |all| ensures script[k - 1].reply == Some(all[k]) {
      assert all[k] == rest[k - 1];
      if k > 1 { assert script[1..][k - 2] == script[k - 1]; }
    }
  }

  /** Once a retry was answered, or its wait aborted, no reply that was retried before is on
      the branch. */
  lemma RetriedRepliesAreGone(branch: seq<Entry>, msg: Message, attempt: int, script: seq<Attempt>, settings: Settings,
                              r: Recognisers)
    requires Recorded(branch, msg, script)
    ensures var d := Attempts(branch, msg, attempt, script, settings, r);
            d.ending.Answered? || d.ending.WaitAborted? ==>
            Gone(d.branch, d.tried, if d.ending.Answered? then |d.tried| else |d.tried| - 1)
  {
    assert script[0..] == script;
    var d := Attempts(branch, msg, attempt, script, settings, r);
    assert [] + d.tried == d.tried;
    RetriesClear(branch, msg, attempt, script, settings, r, []);
  }

  lemma {:induction false} RetriesClear(branch: seq<Entry>, msg: Message, attempt: int, script: seq<Attempt>,
                                        settings: Settings, r: Recognisers, tried: seq<Message>)
    requires |tried| <= |script| && Cleared(branch, msg, tried, script)
    requires forall n | 0 <= n < |script| && script[n].reply.Some? ::
      OnBranch(script[n].appended, script[n].reply.value)
    ensures var d := Attempts(branch, msg, attempt, script[|tried|..], settings, r);
            var all := tried + d.tried;
            d.ending.Answered? || d.ending.WaitAborted? ==>
            Gone(d.branch, all, if d.ending.Answered? then |all| else |all| - 1)
    decreases |script| - |tried|
  {
    hide TryOnce;
    hide Later;
    hide AllDistinct;
    hide Nowhere;
    var n, rest := |tried|, script[|tried|..];
    if !settings.enabled || !Retryable(msg, r) || attempt >= settings.maxRetries || rest == [] {
      assert tried + [] == tried;
      ClearedAreGone(branch, msg, tried, script);
    } else {
      assert rest[0] == script[n] && rest[1..] == script[n + 1..];
      assert OnBranch(branch, msg);
      var t := TryOnce(branch, msg, script[n]);
      var k := TriedBranch(branch, msg, script[n]);
      AttemptSettles(branch, t.branch, k, msg, t.reply, tried, script, t.ending);
      if t.ending.Answered? {
        var d := Attempts(t.branch, t.reply, attempt + 1, script[n + 1..], settings, r);
        RetriesClear(t.branch, t.reply, attempt + 1, script, settings, r, tried + [msg]);
        assert tried + ([msg] + d.tried) == tried + [msg] + d.tried;
      }
    }
  }

  class Retrier {
    var retryAttempt: int
    var branch: seq<Entry>
    var events: seq<Event>
    const settings: Settings
    const recognisers: Recognisers

    constructor (settings: Settings, recognisers: Recognisers, branch: seq<Entry>)
      ensures this.settings == settings && this.recognisers == recognisers
      ensures this.branch == branch && retryAttempt == 0 && events == []
    {
      this.settings, this.recognisers, this.branch, retryAttempt, events := settings, recognisers, branch, 0, [];
    }

    /** The failed reply and what follows it leave the active branch, unless the session
        cannot be read or moved. */
    method PrepareRetryAssistant(m: Message, branchFails: bool, moveFails: bool) returns (ok: bool)
      modifies this`branch
      ensures ok <==> !branchFails && (old(EntryFor(branch, m)).None? || !moveFails)
      ensures branch == if ok then Without(old(branch), m) else old(branch)
    {
      if branchFails { return false; }
      var found := AssistantEntryForMessage(branch, m);
      if found.None? { return true; }
      if moveFails { return false; }
      branch := branch[..found.value];
      return true;
    }

    /** One pass of the loop, from the start event to the reply it gets. */
    method TryAgain(msg: Message, now: Attempt) returns (reply: Message, ending: Ending)
      requires retryAttempt >= 0
      modifies this
      ensures Tried(ending, reply, branch) == TryOnce(old(branch), msg, now)
      ensures retryAttempt == if ending.WaitAborted? || ending.RunEnded? then 0 else old(retryAttempt) + 1
      ensures events == old(events) + [Started(msg, old(retryAttempt) + 1, settings)]
                        + (if ending.WaitAborted? then [RetryEnd(false, old(retryAttempt) + 1)] else [])
    {
      retryAttempt := retryAttempt + 1;
      events := events + [Started(msg, retryAttempt, settings)];
      match now.wait {
        case RetryAborted =>
          events := events + [RetryEnd(false, retryAttempt)];
          retryAttempt := 0;
          return msg, WaitAborted;
        case RunCancelled =>
          retryAttempt := 0;
          return msg, RunEnded;
        case Waited =>
      }
      var ok := PrepareRetryAssistant(msg, now.branchFails, now.moveFails);
      if !ok { return msg, Broke; }
      branch := branch + now.appended;
      if now.reply.None? { return msg, Broke; }
      return now.reply.value, Answered;
    }

    /** Retries while the reply is a transient error and attempts are left.  `tried` are the
        replies that were retried, in order. */
    method RetryTransientError(msg: Message, script: seq<Attempt>)
      returns (reply: Message, ending: Ending, ghost tried: seq<Message>)
      requires 0 <= retryAttempt && |script| >= settings.maxRetries
      modifies this
      ensures Retried(ending, reply, branch, tried)
           == Attempts(old(branch), msg, old(retryAttempt), script, settings, recognisers)
      ensures events == old(events) + Starts(tried, old(retryAttempt), settings)
                        + Closing(ending, reply, tried != [], old(retryAttempt) + |tried|)
      ensures retryAttempt == CounterAfter(ending, msg, old(retryAttempt), |tried|)
    {
      hide Attempts;
      hide TryOnce;
      hide Started;
      hide Starts;
      ghost var goal := Attempts(branch, msg, retryAttempt, script, settings, recognisers);
      ghost var before, published := retryAttempt, events;
      reply, ending, tried := msg, Answered, [];
      var n := 0;
      assert script[0..] == script && [] + goal.tried == goal.tried;
      assert GoesTo(tried, Attempts(branch, reply, retryAttempt, script[n..], settings, recognisers), goal);
      hide GoesTo;
      while settings.enabled && Retryable(reply, recognisers) && retryAttempt < settings.maxRetries
        invariant n == |tried| && retryAttempt == before + n && ending.Answered?
        invariant if n == 0 then reply == msg
                  else n <= settings.maxRetries && msg.stopReason.Error? && reply.stopReason.Error?
        invariant events == published + Starts(tried, before, settings)
        invariant GoesTo(tried, Attempts(branch, reply, retryAttempt, script[n..], settings, recognisers), goal)
        decreases settings.maxRetries - retryAttempt
      {
        StartsGrow(published, tried, reply, before, settings);
        AttemptsGo(branch, reply, retryAttempt, script, n, settings, recognisers, tried, goal);
        var next;
        next, ending := TryAgain(reply, script[n]);
        n, reply, tried := n + 1, next, tried + [reply];
        if !ending.Answered? { return; }
        if !reply.stopReason.Error? {
          AttemptsEnd(branch, reply, retryAttempt, script[n..], settings, recognisers, tried, goal);
          events := events + [RetryEnd(true, retryAttempt)];
          retryAttempt := 0;
          return;
        }
      }
      AttemptsEnd(branch, reply, retryAttempt, script[n..], settings, recognisers, tried, goal);
      EndFailed(reply);
    }

    /** The end event of retries that are used up. */
    method EndFailed(reply: Message)
      modifies this`events, this`retryAttempt
      ensures events == old(events) + if reply.stopReason.Error? && old(retryAttempt) > 0
                                      then [RetryEnd(false, old(retryAttempt))] else []
      ensures retryAttempt == if reply.stopReason.Error? && old(retryAttempt) > 0 then 0 else old(retryAttempt)
    {
      if reply.stopReason.Error? && retryAttempt > 0 {
        events := events + [RetryEnd(false, retryAttempt)];
        retryAttempt := 0;
      }
    }
  }

  lemma StartsGrow(published: seq<Event>, tried: seq<Message>, reply: Message, before: int, settings: Settings)
    ensures published + Starts(tried + [reply], before, settings)
         == published + Starts(tried, before, settings) + [Started(reply, before + |tried| + 1, settings)]
  {
    assert Starts(tried + [reply], before, settings)
        == Starts(tried, before, settings) + [Started(reply, before + |tried| + 1, settings)];
  }
}
