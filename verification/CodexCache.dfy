/** The per-session WebSocket cache as a shared-state protocol. Every step is one
    critical section, or one action of the stream that holds a connection, so a run
    is any interleaving of acquires, dials that finish in any order, requests,
    responses, releases, and idle timers that fire early, late, or after being
    stopped too late. */
module CodexCache {
  import opened Messages
  import opened CodexDelta

  /** What the cache knows of a connection dialled for it. A connection and its
      entry are created together and never part. */
  datatype Entry = Entry(session: string, busy: bool, idleTimer: Option<nat>, continuation: Option<Continuation>)

  /** A connection: what the server has stored on it, its cache entry if it was
      dialled for one, and the stream that holds it. */
  datatype Link = Link(open: bool, stored: map<string, seq<Item>>, entry: Option<Entry>, holder: Option<nat>)

  /** `Firing` is a callback that already waits for the lock: stopping it is too late. */
  datatype TimerState = Armed | Firing | Dead

  datatype Timer = Timer(link: nat, state: TimerState)

  /** What a stream has asked for and not yet been answered. */
  datatype Sent = Sent(payload: Request, request: Request, cached: bool)

  datatype Stream =
    | Dialling(session: string, forCache: bool)
    | Holding(link: nat, sent: Option<Sent>, keep: bool)
    | Over

  /** Links, timers and streams are named by their position. */
  datatype State = State(cache: map<string, nat>, links: seq<Link>, timers: seq<Timer>, streams: seq<Stream>)

  const INITIAL := State(map[], [], [], [])

  /** How a response ends. `Answered` is a completed one, with the items the next
      history contains for it; `NoIdentity` completed without a response id;
      `EndedBadly` is an error or abort reply, or none; `Interrupted` is a write
      failure, a stream error, or a consumer that stopped. */
  datatype Ending =
    | Answered(responseID: string, items: seq<Item>)
    | NoIdentity
    | EndedBadly
    | Interrupted
    | ContextCancelled

  datatype Step =
    | Acquire(session: string)
    | Dialled(stream: nat, connected: bool)
    | Send(stream: nat, payload: Request, cached: bool)
    | Finish(stream: nat, ending: Ending)
    | Release(stream: nat)
    | Fire(timer: nat)
    | Expire(timer: nat)

  // ---- the steps --------------------------------------------------------------------

  function Stopped(timers: seq<Timer>, t: Option<nat>): (r: seq<Timer>)
    ensures |r| == |timers|
  {
    if t.Some? && t.value < |timers| && timers[t.value].state.Armed?
    then timers[t.value := timers[t.value].(state := Dead)] else timers
  }

  predicate Holds(s: State, i: nat) {
    i < |s.streams| && s.streams[i].Holding? && s.streams[i].link < |s.links|
  }

  /** When a step can happen. Payloads do not name a previous response themselves,
      and the server gives every response on a connection a new id. */
  predicate Enabled(s: State, step: Step) {
    match step
    case Acquire(session) =>
      session in s.cache ==> s.cache[session] < |s.links| && s.links[s.cache[session]].entry.Some?
    case Dialled(i, _) => i < |s.streams| && s.streams[i].Dialling?
    case Send(i, payload, _) => Holds(s, i) && s.streams[i].sent.None? && payload.previousResponseID.None?
    case Finish(i, ending) =>
      Holds(s, i) && s.streams[i].sent.Some?
      && (ending.Answered? ==>
            ending.responseID !in s.links[s.streams[i].link].stored
            && EffectiveInput(s.links[s.streams[i].link].stored, s.streams[i].sent.value.request).Some?)
    case Release(i) => Holds(s, i)
    case Fire(t) => t < |s.timers| && s.timers[t].state.Armed?
    case Expire(t) =>
      t < |s.timers| && s.timers[t].state.Firing? && s.timers[t].link < |s.links|
          && s.links[s.timers[t].link].entry.Some?
  }

  /** Reuse the idle cached connection, or start to dial: for no entry when there is
      no session or the cached connection is busy, else for a new one. */
  function AcquireStep(s: State, session: string): State
    requires Enabled(s, Acquire(session))
  {
    if session == "" || session !in s.cache then s.(streams := s.streams + [Dialling(session, session != "")])
    else
      var n := s.cache[session];
      var link, entry := s.links[n], s.links[n].entry.value;
      var timers := Stopped(s.timers, entry.idleTimer);
      if entry.busy then
        s.(timers := timers, links := s.links[n := link.(entry := Some(entry.(idleTimer := None)))],
           streams := s.streams + [Dialling(session, false)])
      else
        s.(timers := timers,
           links := s.links[n := link.(entry := Some(entry.(idleTimer := None, busy := true)),
                                       holder := Some(|s.streams|))],
           streams := s.streams + [Holding(n, None, true)])
  }

  /** A finished dial. The entry of a first dial replaces whatever another first
      dial has cached in the meantime. */
  function DialledStep(s: State, i: nat, connected: bool): State
    requires Enabled(s, Dialled(i, connected))
  {
    var d, n := s.streams[i], |s.links|;
    if !connected then s.(streams := s.streams[i := Over])
    else
      s.(cache := if d.forCache then s.cache[d.session := n] else s.cache,
         links := s.links + [Link(true, map[], if d.forCache then Some(Entry(d.session, true, None, None)) else None,
                                  Some(i))],
         streams := s.streams[i := Holding(n, None, true)])
  }

  /** The holder sends a request: in the cached transport the short form when the
      entry's continuation allows it; otherwise that continuation is dropped. */
  function SendStep(s: State, i: nat, payload: Request, cached: bool): State
    requires Enabled(s, Send(i, payload, cached))
  {
    var h := s.streams[i];
    var link := s.links[h.link];
    if cached && link.entry.Some? then
      var entry := link.entry.value;
      s.(streams := s.streams[i := h.(sent := Some(Sent(payload, CachedRequest(payload, entry.continuation), true)))],
         links := s.links[h.link := link.(
           entry := Some(entry.(continuation := SurvivingContinuation(payload, entry.continuation))))])
    else s.(streams := s.streams[i := h.(sent := Some(Sent(payload, payload, cached)))])
  }

  /** The continuation a finished response leaves on its entry. */
  function NextContinuation(sent: Sent, ending: Ending, c: Option<Continuation>): Option<Continuation> {
    match ending
    case Answered(id, items) =>
      if id == "" then None
      else if sent.cached then Some(Continuation(sent.payload.bodyKey, InputItems(sent.payload), items, id))
      else c
    case ContextCancelled => c
    case _ => None
  }

  function StoredAfter(stored: map<string, seq<Item>>, sent: Sent, ending: Ending): map<string, seq<Item>>
    requires ending.Answered? ==> EffectiveInput(stored, sent.request).Some?
  {
    if ending.Answered?
    then stored[ending.responseID := EffectiveInput(stored, sent.request).value + ending.items]
    else stored
  }

  function FinishStep(s: State, i: nat, ending: Ending): State
    requires Enabled(s, Finish(i, ending))
  {
    var h := s.streams[i];
    var link, sent := s.links[h.link], h.sent.value;
    s.(streams := s.streams[i := h.(sent := None, keep := ending.Answered? || ending.NoIdentity?)],
       links := s.links[h.link := link.(
         stored := StoredAfter(link.stored, sent, ending),
         entry := if link.entry.None? then None
                  else Some(link.entry.value.(
                    continuation := NextContinuation(sent, ending, link.entry.value.continuation))))])
  }

  function Evicted(cache: map<string, nat>, session: string, n: nat): map<string, nat> {
    if session in cache && cache[session] == n then cache - {session} else cache
  }

  /** Give the connection back: close it when it was dialled for no entry or is not
      to be kept, else arm a fresh idle timer. */
  function ReleaseStep(s: State, i: nat): State
    requires Enabled(s, Release(i))
  {
    var h := s.streams[i];
    var link := s.links[h.link];
    if link.entry.None? then
      s.(streams := s.streams[i := Over], links := s.links[h.link := link.(open := false, holder := None)])
    else
      var entry := link.entry.value;
      var timers := Stopped(s.timers, entry.idleTimer);
      if !h.keep then
        s.(streams := s.streams[i := Over], links := s.links[h.link := link.(open := false, holder := None)],
           timers := timers, cache := Evicted(s.cache, entry.session, h.link))
      else
        s.(streams := s.streams[i := Over],
           links := s.links[h.link := link.(holder := None,
                                            entry := Some(entry.(busy := false, idleTimer := Some(|timers|))))],
           timers := timers + [Timer(h.link, Armed)])
  }

  /** The callback of an idle timer, once it has the lock. */
  function ExpireStep(s: State, t: nat): State
    requires Enabled(s, Expire(t))
  {
    var n := s.timers[t].link;
    var link := s.links[n];
    var timers := s.timers[t := s.timers[t].(state := Dead)];
    if link.entry.value.busy then s.(timers := timers)
    else s.(timers := timers, links := s.links[n := link.(open := false)],
            cache := Evicted(s.cache, link.entry.value.session, n))
  }

  function Next(s: State, step: Step): State
    requires Enabled(s, step)
  {
    match step
    case Acquire(session) => AcquireStep(s, session)
    case Dialled(i, connected) => DialledStep(s, i, connected)
    case Send(i, payload, cached) => SendStep(s, i, payload, cached)
    case Finish(i, ending) => FinishStep(s, i, ending)
    case Release(i) => ReleaseStep(s, i)
    case Fire(t) => s.(timers := s.timers[t := s.timers[t].(state := Firing)])
    case Expire(t) => ExpireStep(s, t)
  }

  // ---- the invariant ------------------------------------------------------------------

  /** A cached connection is open. */
  ghost predicate CachedAreOpen(s: State) {
    forall k <- s.cache ::
      && s.cache[k] < |s.links| && s.links[s.cache[k]].open
      && s.links[s.cache[k]].entry.Some? && s.links[s.cache[k]].entry.value.session == k
  }

  /** Every stream's hold is recorded by its connection, and the other way round. */
  ghost predicate HoldersAgree(s: State) {
    && (forall i | 0 <= i < |s.streams| && s.streams[i].Holding? ::
          s.streams[i].link < |s.links| && s.links[s.streams[i].link].holder == Some(i))
    && (forall n | 0 <= n < |s.links| && s.links[n].holder.Some? ::
          && s.links[n].holder.value < |s.streams|
          && s.streams[s.links[n].holder.value].Holding? && s.streams[s.links[n].holder.value].link == n)
  }

  /** A held connection is open and its entry is busy. */
  ghost predicate HeldAreBusy(s: State) {
    forall n | 0 <= n < |s.links| && s.links[n].holder.Some? ::
      s.links[n].open && (s.links[n].entry.Some? ==> s.links[n].entry.value.busy)
  }

  ghost predicate TimersOwn(s: State) {
    && (forall n | 0 <= n < |s.links| && s.links[n].entry.Some? && s.links[n].entry.value.idleTimer.Some? ::
          && s.links[n].entry.value.idleTimer.value < |s.timers|
          && s.timers[s.links[n].entry.value.idleTimer.value].link == n)
    && (forall t | 0 <= t < |s.timers| :: s.timers[t].link < |s.links| && s.links[s.timers[t].link].entry.Some?)
  }

  /** An open connection that nobody holds is idle, and its timer will still close it. */
  ghost predicate IdleExpire(s: State) {
    forall n | 0 <= n < |s.links| && s.links[n].open && s.links[n].holder.None? ::
      && s.links[n].entry.Some? && !s.links[n].entry.value.busy && s.links[n].entry.value.idleTimer.Some?
      && s.links[n].entry.value.idleTimer.value < |s.timers|
      && !s.timers[s.links[n].entry.value.idleTimer.value].state.Dead?
  }

  /** A live continuation stands for a conversation the server holds. */
  ghost predicate ContinuationsBacked(s: State) {
    forall n | 0 <= n < |s.links| && s.links[n].entry.Some? ::
      Backed(s.links[n].entry.value.continuation, s.links[n].stored)
  }

  /** Every request under way says to the server what its full payload says. */
  ghost predicate RequestsFaithful(s: State) {
    forall i | 0 <= i < |s.streams| && s.streams[i].Holding? && s.streams[i].sent.Some? ::
      && s.streams[i].link < |s.links| && s.streams[i].sent.value.payload.previousResponseID.None?
      && EffectiveInput(s.links[s.streams[i].link].stored, s.streams[i].sent.value.request)
         == Some(InputItems(s.streams[i].sent.value.payload))
  }

  ghost predicate Structure(s: State) {
    CachedAreOpen(s) && HoldersAgree(s) && HeldAreBusy(s) && TimersOwn(s) && IdleExpire(s)
  }

  ghost predicate Valid(s: State) {
    Structure(s) && ContinuationsBacked(s) && RequestsFaithful(s)
  }

  lemma AcquireKeepsCache(s: State, session: string)
    requires CachedAreOpen(s) && Enabled(s, Acquire(session))
    ensures CachedAreOpen(AcquireStep(s, session))
  {
  }

  lemma AcquireKeepsHolders(s: State, session: string)
    requires Structure(s) && Enabled(s, Acquire(session))
    ensures HoldersAgree(AcquireStep(s, session)) && HeldAreBusy(AcquireStep(s, session))
  {
  }

  lemma AcquireKeepsTimers(s: State, session: string)
    requires TimersOwn(s) && Enabled(s, Acquire(session))
    ensures TimersOwn(AcquireStep(s, session))
  {
  }

  lemma AcquireKeepsIdle(s: State, session: string)
    requires HoldersAgree(s) && HeldAreBusy(s) && TimersOwn(s) && IdleExpire(s) && Enabled(s, Acquire(session))
    ensures IdleExpire(AcquireStep(s, session))
  {
  }

  lemma AcquireKeepsMeaning(s: State, session: string)
    requires Valid(s) && Enabled(s, Acquire(session))
    ensures ContinuationsBacked(AcquireStep(s, session)) && RequestsFaithful(AcquireStep(s, session))
  {
  }

  lemma DialledKeepsValid(s: State, i: nat, connected: bool)
    requires Valid(s) && Enabled(s, Dialled(i, connected))
    ensures Valid(DialledStep(s, i, connected))
  {
  }

  lemma SendKeepsValid(s: State, i: nat, payload: Request, cached: bool)
    requires Valid(s) && Enabled(s, Send(i, payload, cached))
    ensures Valid(SendStep(s, i, payload, cached))
  {
    var link := s.links[s.streams[i].link];
    if cached && link.entry.Some? { CachedRequestRefinesFull(payload, link.entry.value.continuation, link.stored); }
  }

  lemma FinishKeepsValid(s: State, i: nat, ending: Ending)
    requires Valid(s) && Enabled(s, Finish(i, ending))
    ensures Valid(FinishStep(s, i, ending))
  {
  }

  lemma ReleaseKeepsHolders(s: State, i: nat)
    requires Structure(s) && Enabled(s, Release(i))
    ensures var s' := ReleaseStep(s, i); CachedAreOpen(s') && HoldersAgree(s') && HeldAreBusy(s')
  {
  }

  lemma ReleaseKeepsTimers(s: State, i: nat)
    requires HoldersAgree(s) && TimersOwn(s) && Enabled(s, Release(i))
    ensures TimersOwn(ReleaseStep(s, i))
  {
  }

  lemma ReleaseKeepsIdle(s: State, i: nat)
    requires HoldersAgree(s) && TimersOwn(s) && IdleExpire(s) && Enabled(s, Release(i))
    ensures IdleExpire(ReleaseStep(s, i))
  {
  }

  lemma ReleaseKeepsMeaning(s: State, i: nat)
    requires Valid(s) && Enabled(s, Release(i))
    ensures ContinuationsBacked(ReleaseStep(s, i)) && RequestsFaithful(ReleaseStep(s, i))
  {
  }

  lemma ExpireKeepsStructure(s: State, t: nat)
    requires Structure(s) && Enabled(s, Expire(t))
    ensures Structure(ExpireStep(s, t))
  {
  }

  lemma ExpireKeepsMeaning(s: State, t: nat)
    requires ContinuationsBacked(s) && RequestsFaithful(s) && Enabled(s, Expire(t))
    ensures ContinuationsBacked(ExpireStep(s, t)) && RequestsFaithful(ExpireStep(s, t))
  {
  }

  lemma FireKeepsValid(s: State, t: nat)
    requires Valid(s) && Enabled(s, Fire(t))
    ensures Valid(Next(s, Fire(t)))
  {
  }

  lemma NextKeepsValid(s: State, step: Step)
    requires Valid(s) && Enabled(s, step)
    ensures Valid(Next(s, step))
  {
    match step
    case Acquire(session) =>
      AcquireKeepsCache(s, session);
      AcquireKeepsHolders(s, session);
      AcquireKeepsTimers(s, session);
      AcquireKeepsIdle(s, session);
      AcquireKeepsMeaning(s, session);
    case Dialled(i, connected) => DialledKeepsValid(s, i, connected);
    case Send(i, payload, cached) => SendKeepsValid(s, i, payload, cached);
    case Finish(i, ending) => FinishKeepsValid(s, i, ending);
    case Release(i) =>
      ReleaseKeepsHolders(s, i);
      ReleaseKeepsTimers(s, i);
      ReleaseKeepsIdle(s, i);
      ReleaseKeepsMeaning(s, i);
    case Fire(t) => FireKeepsValid(s, t);
    case Expire(t) =>
      ExpireKeepsStructure(s, t);
      ExpireKeepsMeaning(s, t);
  }

  // ---- runs ---------------------------------------------------------------------------

  predicate Possible(s: State, steps: seq<Step>)
    decreases |steps|
  {
    steps == [] || (Enabled(s, steps[0]) && Possible(Next(s, steps[0]), steps[1..]))
  }

  function Run(s: State, steps: seq<Step>): State
    requires Possible(s, steps)
    decreases |steps|
  {
    if steps == [] then s else Run(Next(s, steps[0]), steps[1..])
  }

  lemma {:induction false} RunKeepsValid(s: State, steps: seq<Step>)
    requires Valid(s) && Possible(s, steps)
    ensures Valid(Run(s, steps))
    decreases |steps|
  {
    if steps != [] {
      NextKeepsValid(s, steps[0]);
      RunKeepsValid(Next(s, steps[0]), steps[1..]);
    }
  }

  /** No connection is held by two streams. */
  ghost predicate HeldOnce(s: State) {
    forall i, j | 0 <= i < j < |s.streams| && s.streams[i].Holding? && s.streams[j].Holding? ::
      s.streams[i].link != s.streams[j].link
  }

  ghost predicate HeldBy(s: State, i: nat, n: nat) {
    i < |s.streams| && s.streams[i].Holding? && s.streams[i].link == n
  }

  ghost predicate WillClose(s: State, t: nat, n: nat) {
    t < |s.timers| && s.timers[t].link == n && !s.timers[t].state.Dead?
  }

  /** Every open connection is held by a stream or has a timer that is still to run. */
  ghost predicate NothingLeaks(s: State) {
    forall n | 0 <= n < |s.links| && s.links[n].open ::
      (exists i: nat :: HeldBy(s, i, n)) || (exists t: nat :: WillClose(s, t, n))
  }

  /** In every reachable state, whatever the interleaving. */
  lemma EveryRunIsSafe(steps: seq<Step>)
    requires Possible(INITIAL, steps)
    ensures var s := Run(INITIAL, steps); CachedAreOpen(s) && HeldOnce(s) && NothingLeaks(s) && RequestsFaithful(s)
  {
    var s := Run(INITIAL, steps);
    RunKeepsValid(INITIAL, steps);
    forall n | 0 <= n < |s.links| && s.links[n].open
      ensures (exists i: nat :: HeldBy(s, i, n)) || (exists t: nat :: WillClose(s, t, n))
    {
      if s.links[n].holder.Some? {
        assert HeldBy(s, s.links[n].holder.value, n);
      } else {
        assert WillClose(s, s.links[n].entry.value.idleTimer.value, n);
      }
    }
  }

  /** An idle timer, however late, never closes a connection that a stream holds. */
  lemma ExpireSparesTheHeld(steps: seq<Step>, t: nat, i: nat)
    requires Possible(INITIAL, steps) && Enabled(Run(INITIAL, steps), Expire(t))
    requires i < |Run(INITIAL, steps).streams| && Run(INITIAL, steps).streams[i].Holding?
    ensures var s := Run(INITIAL, steps);
            s.streams[i].link < |s.links| && ExpireStep(s, t).links[s.streams[i].link] == s.links[s.streams[i].link]
  {
    RunKeepsValid(INITIAL, steps);
  }

  // ---- the short form refines sending everything -------------------------------------

  function ForgetLink(l: Link): Link {
    if l.entry.None? then l else l.(entry := Some(l.entry.value.(continuation := None)))
  }

  function ForgetStream(st: Stream): Stream {
    if st.Holding? && st.sent.Some?
    then st.(sent := Some(Sent(st.sent.value.payload, st.sent.value.payload, false)))
    else st
  }

  /** The state as it would be had every request been sent in full. */
  function Forget(s: State): (r: State)
    ensures |r.links| == |s.links| && |r.streams| == |s.streams| && r.cache == s.cache && r.timers == s.timers
    ensures forall n | 0 <= n < |s.links| :: r.links[n] == ForgetLink(s.links[n])
    ensures forall i | 0 <= i < |s.streams| :: r.streams[i] == ForgetStream(s.streams[i])
  {
    s.(links := seq(|s.links|, n requires 0 <= n < |s.links| => ForgetLink(s.links[n])),
       streams := seq(|s.streams|, i requires 0 <= i < |s.streams| => ForgetStream(s.streams[i])))
  }

  function Plain(step: Step): Step {
    match step
    case Send(i, payload, _) => Send(i, payload, false)
    case _ => step
  }

  function AllPlain(steps: seq<Step>): seq<Step> {
    if steps == [] then [] else [Plain(steps[0])] + AllPlain(steps[1..])
  }

  /** Forgetting the continuations commutes with a step. */
  ghost predicate Commutes(s: State, step: Step)
    requires Enabled(s, step)
  {
    && Enabled(Forget(s), Plain(step))
    && var a, b := Next(Forget(s), Plain(step)), Next(s, step);
       && a.cache == b.cache && a.timers == b.timers && |a.links| == |b.links| && |a.streams| == |b.streams|
       && (forall n | 0 <= n < |b.links| :: a.links[n] == ForgetLink(b.links[n]))
       && (forall i | 0 <= i < |b.streams| :: a.streams[i] == ForgetStream(b.streams[i]))
  }

  lemma PlainAcquire(s: State, session: string)
    requires Valid(s) && Enabled(s, Acquire(session))
    ensures Commutes(s, Acquire(session))
  {
  }

  lemma PlainDialled(s: State, i: nat, connected: bool)
    requires Valid(s) && Enabled(s, Dialled(i, connected))
    ensures Commutes(s, Dialled(i, connected))
  {
  }

  lemma PlainSend(s: State, i: nat, payload: Request, cached: bool)
    requires Valid(s) && Enabled(s, Send(i, payload, cached))
    ensures Commutes(s, Send(i, payload, cached))
  {
  }

  lemma PlainFinish(s: State, i: nat, ending: Ending)
    requires Valid(s) && Enabled(s, Finish(i, ending))
    ensures Commutes(s, Finish(i, ending))
  {
  }

  lemma PlainRelease(s: State, i: nat)
    requires Valid(s) && Enabled(s, Release(i))
    ensures Commutes(s, Release(i))
  {
  }

  lemma PlainFire(s: State, t: nat)
    requires Valid(s) && Enabled(s, Fire(t))
    ensures Commutes(s, Fire(t))
  {
  }

  lemma PlainExpire(s: State, t: nat)
    requires Valid(s) && Enabled(s, Expire(t))
    ensures Commutes(s, Expire(t))
  {
  }

  lemma PlainCommutes(s: State, step: Step)
    requires Valid(s) && Enabled(s, step)
    ensures Commutes(s, step)
  {
    match step
    case Acquire(session) => PlainAcquire(s, session);
    case Dialled(i, connected) => PlainDialled(s, i, connected);
    case Send(i, payload, cached) => PlainSend(s, i, payload, cached);
    case Finish(i, ending) => PlainFinish(s, i, ending);
    case Release(i) => PlainRelease(s, i);
    case Fire(t) => PlainFire(s, t);
    case Expire(t) => PlainExpire(s, t);
  }

  lemma PlainStep(s: State, step: Step)
    requires Valid(s) && Enabled(s, step)
    ensures Enabled(Forget(s), Plain(step)) && Next(Forget(s), Plain(step)) == Forget(Next(s, step))
  {
    PlainCommutes(s, step);
    var a, b := Next(Forget(s), Plain(step)), Forget(Next(s, step));
    assert a.links == b.links && a.streams == b.streams;
  }

  /** Any run with short requests leads to the state of the run that sends every
      payload in full: in particular the server has stored the same conversations. */
  lemma {:induction false} ShortFormRefinesFull(s: State, steps: seq<Step>)
    requires Valid(s) && Possible(s, steps)
    ensures Possible(Forget(s), AllPlain(steps))
    ensures Run(Forget(s), AllPlain(steps)) == Forget(Run(s, steps))
    decreases |steps|
  {
    if steps != [] {
      var next := Next(s, steps[0]);
      PlainStep(s, steps[0]);
      NextKeepsValid(s, steps[0]);
      ShortFormRefinesFull(next, steps[1..]);
      assert AllPlain(steps)[0] == Plain(steps[0]) && AllPlain(steps)[1..] == AllPlain(steps[1..]);
    }
  }

  lemma ServerCannotTell(steps: seq<Step>, n: nat)
    requires Possible(INITIAL, steps) && n < |Run(INITIAL, steps).links|
    ensures Possible(INITIAL, AllPlain(steps))
    ensures n < |Run(INITIAL, AllPlain(steps)).links|
    ensures Run(INITIAL, AllPlain(steps)).links[n].stored == Run(INITIAL, steps).links[n].stored
  {
    ShortFormRefinesFull(INITIAL, steps);
    assert Forget(INITIAL) == INITIAL;
  }

  // ---- the cache object -----------------------------------------------------------------

  /** The shared variables; every method is one critical section. */
  class WebSocketCache {
    var cache: map<string, nat>
    var links: seq<Link>
    var timers: seq<Timer>
    var streams: seq<Stream>

    ghost function View(): State reads this {
      State(cache, links, timers, streams)
    }

    constructor ()
      ensures View() == INITIAL
    {
      cache, links, timers, streams := map[], [], [], [];
    }

    method AcquireCodexWebSocket(session: string) returns (stream: nat)
      requires Enabled(View(), Acquire(session))
      modifies this
      ensures View() == AcquireStep(old(View()), session) && stream == |old(streams)|
    {
      stream := |streams|;
      if session == "" {
        streams := streams + [Dialling(session, false)];
        return;
      }
      if session in cache {
        var n := cache[session];
        var entry := links[n].entry.value;
        if entry.idleTimer.Some? {
          StopIdleTimer(entry.idleTimer.value);
          entry := entry.(idleTimer := None);
        }
        if !entry.busy {
          entry := entry.(busy := true);
          links := links[n := links[n].(entry := Some(entry), holder := Some(stream))];
          streams := streams + [Holding(n, None, true)];
          return;
        }
        links := links[n := links[n].(entry := Some(entry))];
        streams := streams + [Dialling(session, false)];
        return;
      }
      streams := streams + [Dialling(session, true)];
    }

    method StopIdleTimer(t: nat)
      modifies this`timers
      ensures timers == Stopped(old(timers), Some(t))
    {
      if t < |timers| && timers[t].state.Armed? {
        timers := timers[t := timers[t].(state := Dead)];
      }
    }

    method DialDone(stream: nat, connected: bool)
      requires Enabled(View(), Dialled(stream, connected))
      modifies this
      ensures View() == DialledStep(old(View()), stream, connected)
    {
      if !connected {
        streams := streams[stream := Over];
        return;
      }
      var dial, n := streams[stream], |links|;
      if dial.forCache {
        links := links + [Link(true, map[], Some(Entry(dial.session, true, None, None)), Some(stream))];
        cache := cache[dial.session := n];
      } else {
        links := links + [Link(true, map[], None, Some(stream))];
      }
      streams := streams[stream := Holding(n, None, true)];
    }

    /** Builds the request, dropping a continuation that the payload does not extend. */
    method BuildCachedCodexWSRequest(n: nat, payload: Request) returns (request: Request)
      requires n < |links| && links[n].entry.Some?
      modifies this`links
      ensures request == CachedRequest(payload, old(links[n].entry.value.continuation))
      ensures links == old(links)[n := old(links[n]).(entry := Some(old(links[n].entry.value).(
        continuation := SurvivingContinuation(payload, old(links[n].entry.value.continuation)))))]
    {
      var entry := links[n].entry.value;
      if entry.continuation.None? {
        return payload;
      }
      var c := entry.continuation.value;
      if c.lastResponseID == "" || payload.bodyKey != c.lastBody {
        links := links[n := links[n].(entry := Some(entry.(continuation := None)))];
        return payload;
      }
      var baseline := c.lastInput + c.lastResponseItems;
      if payload.input.None? || |payload.input.value| < |baseline| || payload.input.value[..|baseline|] != baseline {
        links := links[n := links[n].(entry := Some(entry.(continuation := None)))];
        return payload;
      }
      return Request(payload.bodyKey, Some(payload.input.value[|baseline|..]), Some(c.lastResponseID));
    }

    method SendRequest(stream: nat, payload: Request, useCachedContext: bool)
      requires Enabled(View(), Send(stream, payload, useCachedContext))
      modifies this
      ensures View() == SendStep(old(View()), stream, payload, useCachedContext)
    {
      var h := streams[stream];
      var request := payload;
      if useCachedContext && links[h.link].entry.Some? {
        request := BuildCachedCodexWSRequest(h.link, payload);
      }
      streams := streams[stream := h.(sent := Some(Sent(payload, request, useCachedContext)))];
    }

    method EndResponse(stream: nat, ending: Ending)
      requires Enabled(View(), Finish(stream, ending))
      modifies this
      ensures View() == FinishStep(old(View()), stream, ending)
    {
      var h := streams[stream];
      var sent, link := h.sent.value, links[h.link];
      if ending.Answered? {
        var whole := EffectiveInput(link.stored, sent.request).value + ending.items;
        link := link.(stored := link.stored[ending.responseID := whole]);
      }
      if link.entry.Some? {
        var continuation := link.entry.value.continuation;
        match ending {
          case ContextCancelled =>
          case Answered(id, items) =>
            if id == "" {
              continuation := None;
            } else if sent.cached {
              continuation := Some(Continuation(sent.payload.bodyKey, InputItems(sent.payload), items, id));
            }
          case _ =>
            continuation := None;
        }
        link := link.(entry := Some(link.entry.value.(continuation := continuation)));
      }
      links := links[h.link := link];
      streams := streams[stream := h.(sent := None, keep := ending.Answered? || ending.NoIdentity?)];
    }

    method ReleaseCodexWSEntry(stream: nat)
      requires Enabled(View(), Release(stream))
      modifies this
      ensures View() == ReleaseStep(old(View()), stream)
    {
      var h := streams[stream];
      var link := links[h.link];
      streams := streams[stream := Over];
      if link.entry.None? || !h.keep {
        links := links[h.link := link.(open := false, holder := None)];
        if link.entry.Some? {
          var entry := link.entry.value;
          if entry.idleTimer.Some? { StopIdleTimer(entry.idleTimer.value); }
          Evict(entry.session, h.link);
        }
        return;
      }
      var entry := link.entry.value;
      if entry.idleTimer.Some? { StopIdleTimer(entry.idleTimer.value); }
      entry := entry.(busy := false, idleTimer := Some(|timers|));
      timers := timers + [Timer(h.link, Armed)];
      links := links[h.link := link.(holder := None, entry := Some(entry))];
    }

    method Evict(session: string, n: nat)
      modifies this`cache
      ensures cache == Evicted(old(cache), session, n)
    {
      if session in cache && cache[session] == n {
        cache := cache - {session};
      }
    }

    method IdleTimeout(t: nat)
      requires Enabled(View(), Expire(t))
      modifies this
      ensures View() == ExpireStep(old(View()), t)
    {
      var n := timers[t].link;
      timers := timers[t := timers[t].(state := Dead)];
      if links[n].entry.value.busy { return; }
      links := links[n := links[n].(open := false)];
      Evict(links[n].entry.value.session, n);
    }
  }
}
