/** Refreshing an OAuth credential under the store's lock: any number of processes resolve
    the same expired credential, one step at a time and in any order. */
module OAuthRefresh {
  import opened Messages

  datatype Credential = Credential(access: string, refresh: string, expires: int)

  /** How a process leaves the locked section. */
  datatype Verdict = Got(credential: Credential) | RefreshFailed | PersistFailed

  /** Where one process stands in resolving.  From `Holding` to `Leaving` it has the lock. */
  datatype Phase =
    | Idle
    | Seen(current: Credential)
    | Waiting(current: Credential)
    | Holding(current: Credential)
    | Loaded(current: Credential)
    | Calling(current: Credential)
    | Renewed(next: Credential)
    | Leaving(verdict: Verdict)
    | Rereading
    | Resolved(credential: Credential)
    | Missing
    | Failed

  /** `issued` are the credentials the provider ever gave out, oldest first, and `spent` the
      refresh tokens that bought another one. */
  datatype State = State(
    lock: Option<nat>,
    stored: Credential,
    procs: seq<Phase>,
    issued: seq<Credential>,
    spent: seq<string>)

  datatype Step =
    | Start(p: nat)
    | Check(p: nat, now: int)
    | Acquire(p: nat)
    | TimeOut(p: nat)
    | Reread(p: nat)
    | Decide(p: nat, now: int)
    | Refresh(p: nat, answer: Option<Credential>)
    | Persist(p: nat)
    | FailPersist(p: nat)
    | Release(p: nat)
    | RereadFresh(p: nat, now: int)
    | Login(credential: Credential)

  predicate InSection(phase: Phase) {
    phase.Holding? || phase.Loaded? || phase.Calling? || phase.Renewed? || phase.Leaving?
  }

  /** Every credential comes with a refresh token of its own (section 6 of RFC 6749 lets the
      server rotate it with each refresh). */
  ghost predicate Unissued(s: State, c: Credential) {
    forall i | 0 <= i < |s.issued| :: s.issued[i].refresh != c.refresh
  }

  ghost predicate Enabled(s: State, step: Step) {
    match step
    case Login(c) => s.lock.None? && Unissued(s, c)
    case Start(p) => p < |s.procs| && s.procs[p].Idle?
    case Check(p, _) => p < |s.procs| && s.procs[p].Seen?
    case Acquire(p) => p < |s.procs| && s.procs[p].Waiting? && s.lock.None?
    case TimeOut(p) => p < |s.procs| && s.procs[p].Waiting?
    case Reread(p) => p < |s.procs| && s.procs[p].Holding?
    case Decide(p, _) => p < |s.procs| && s.procs[p].Loaded?
    case Refresh(p, answer) => p < |s.procs| && s.procs[p].Calling? && (answer.Some? ==> Unissued(s, answer.value))
    case Persist(p) => p < |s.procs| && s.procs[p].Renewed?
    case FailPersist(p) => p < |s.procs| && s.procs[p].Renewed?
    case Release(p) => p < |s.procs| && s.procs[p].Leaving?
    case RereadFresh(p, _) => p < |s.procs| && s.procs[p].Rereading?
  }

  function AfterRelease(verdict: Verdict): Phase {
    match verdict
    case Got(c) => Resolved(c)
    case RefreshFailed => Rereading
    case PersistFailed => Failed
  }

  function Next(s: State, step: Step): State
    requires Enabled(s, step)
  {
    match step
    case Login(c) => s.(stored := c, issued := s.issued + [c])
    case Start(p) => s.(procs := s.procs[p := Seen(s.stored)])
    case Check(p, now) =>
      var c := s.procs[p].current;
      s.(procs := s.procs[p := if now < c.expires then Resolved(c) else Waiting(c)])
    case Acquire(p) => s.(lock := Some(p), procs := s.procs[p := Holding(s.procs[p].current)])
    case TimeOut(p) => s.(procs := s.procs[p := Failed])
    case Reread(p) => s.(procs := s.procs[p := Loaded(s.stored)])
    case Decide(p, now) =>
      var c := s.procs[p].current;
      s.(procs := s.procs[p := if now < c.expires then Leaving(Got(c)) else Calling(c)])
    case Refresh(p, answer) =>
      var c := s.procs[p].current;
      if answer.None? then s.(procs := s.procs[p := Leaving(RefreshFailed)])
      else s.(procs := s.procs[p := Renewed(answer.value)], issued := s.issued + [answer.value],
              spent := s.spent + [c.refresh])
    case Persist(p) => s.(stored := s.procs[p].next, procs := s.procs[p := Leaving(Got(s.procs[p].next))])
    case FailPersist(p) => s.(procs := s.procs[p := Leaving(PersistFailed)])
    case Release(p) => s.(lock := None, procs := s.procs[p := AfterRelease(s.procs[p].verdict)])
    case RereadFresh(p, now) =>
      s.(procs := s.procs[p := if now < s.stored.expires then Resolved(s.stored) else Missing])
  }

  // ---- what every step keeps --------------------------------------------------------------

  /** The lock is held by exactly the process inside the section. */
  ghost predicate Exclusive(s: State) {
    && (s.lock.Some? ==> s.lock.value < |s.procs|)
    && (forall p | 0 <= p < |s.procs| :: InSection(s.procs[p]) <==> s.lock == Some(p))
  }

  /** A process has renewed the credential but not yet stored it. */
  predicate Renewing(s: State) {
    s.lock.Some? && s.lock.value < |s.procs| && s.procs[s.lock.value].Renewed?
  }

  ghost predicate Rotated(issued: seq<Credential>) {
    issued != [] && forall i, j | 0 <= i < j < |issued| :: issued[i].refresh != issued[j].refresh
  }

  /** The store has the newest credential, but for a renewal under way. */
  ghost predicate Stores(s: State) {
    var n := |s.issued|;
    if Renewing(s) then n >= 2 && s.procs[s.lock.value].next == s.issued[n - 1] && s.stored == s.issued[n - 2]
    else n >= 1 && s.stored == s.issued[n - 1]
  }

  /** What the process in the section has loaded is what is stored. */
  ghost predicate LoadedIsStored(s: State) {
    forall p | 0 <= p < |s.procs| && (s.procs[p].Loaded? || s.procs[p].Calling?) :: s.procs[p].current == s.stored
  }

  /** The token of a credential that is no longer the newest. */
  ghost predicate Outdated(issued: seq<Credential>, token: string) {
    exists i :: 0 <= i < |issued| - 1 && issued[i].refresh == token
  }

  ghost predicate SpentOnce(s: State) {
    NoDuplicates(s.spent) && forall k | 0 <= k < |s.spent| :: Outdated(s.issued, s.spent[k])
  }

  ghost predicate Valid(s: State) {
    Exclusive(s) && Rotated(s.issued) && Stores(s) && LoadedIsStored(s) && SpentOnce(s)
  }

  ghost predicate AllOutdated(s: State) {
    forall k | 0 <= k < |s.spent| :: Outdated(s.issued, s.spent[k])
  }

  /** What even failing persists keep: the store has some issued credential, a renewal under
      way the newest and another than the store, and only outdated tokens are spent. */
  ghost predicate Sound(s: State) {
    && Exclusive(s) && Rotated(s.issued) && LoadedIsStored(s) && AllOutdated(s)
    && s.stored in s.issued
    && (Renewing(s) ==> s.procs[s.lock.value].next == s.issued[|s.issued| - 1] != s.stored)
  }

  /** The stored token bought a credential already. */
  ghost predicate StaleStore(s: State) {
    s.stored.refresh in s.spent
  }

  lemma OutdatedGrows(issued: seq<Credential>, c: Credential, token: string)
    requires Outdated(issued, token)
    ensures Outdated(issued + [c], token)
  {
    var i :| 0 <= i < |issued| - 1 && issued[i].refresh == token;
    assert (issued + [c])[i].refresh == token;
  }

  lemma IssueKeepsSpent(s: State, c: Credential)
    requires SpentOnce(s)
    ensures forall k | 0 <= k < |s.spent| :: Outdated(s.issued + [c], s.spent[k])
  {
    forall k | 0 <= k < |s.spent| ensures Outdated(s.issued + [c], s.spent[k]) {
      OutdatedGrows(s.issued, c, s.spent[k]);
    }
  }

  /** The token that buys the next credential was never spent before. */
  lemma RefreshSpendsNewest(s: State, p: nat, next: Credential)
    requires Valid(s) && Enabled(s, Refresh(p, Some(next)))
    ensures var t := Next(s, Refresh(p, Some(next)));
            SpentOnce(t) && Rotated(t.issued) && s.procs[p].current == s.issued[|s.issued| - 1]
  {
    var t, n := Next(s, Refresh(p, Some(next))), |s.issued|;
    var token := s.procs[p].current.refresh;
    assert InSection(s.procs[p]) && !Renewing(s);
    IssueKeepsSpent(s, next);
    assert t.issued[n - 1].refresh == token;
    assert Outdated(t.issued, token);
    forall k | 0 <= k < |s.spent| ensures s.spent[k] != token {
      var i :| 0 <= i < n - 1 && s.issued[i].refresh == s.spent[k];
    }
  }

  lemma LoginKeepsValid(s: State, c: Credential)
    requires Valid(s) && Enabled(s, Login(c))
    ensures Valid(Next(s, Login(c)))
  {
    IssueKeepsSpent(s, c);
    forall p | 0 <= p < |s.procs| ensures !s.procs[p].Loaded? && !s.procs[p].Calling? {
      assert InSection(s.procs[p]) <==> s.lock == Some(p);
    }
  }

  lemma RefreshKeepsValid(s: State, p: nat, answer: Option<Credential>)
    requires Valid(s) && Enabled(s, Refresh(p, answer))
    ensures Valid(Next(s, Refresh(p, answer)))
  {
    assert InSection(s.procs[p]);
    if answer.Some? { RefreshSpendsNewest(s, p, answer.value); }
  }

  lemma PersistKeepsValid(s: State, p: nat)
    requires Valid(s) && Enabled(s, Persist(p))
    ensures Valid(Next(s, Persist(p)))
  {
    hide SpentOnce;
    hide Rotated;
    assert InSection(s.procs[p]);
    SameSpentOnce(s, Next(s, Persist(p)));
  }

  lemma SameSpentOnce(s: State, t: State)
    requires SpentOnce(s) && s.issued == t.issued && s.spent == t.spent
    ensures SpentOnce(t)
  {
  }

  /** A step of one process that neither renews nor stores a credential. */
  predicate Moves(step: Step) {
    !step.Login? && !step.Refresh? && !step.Persist? && !step.FailPersist?
  }

  lemma MoveKeepsValid(s: State, step: Step)
    requires Valid(s) && Enabled(s, step) && Moves(step)
    ensures Valid(Next(s, step))
  {
    hide SpentOnce;
    hide Rotated;
    assert InSection(s.procs[step.p]) <==> s.lock == Some(step.p);
    SameSpentOnce(s, Next(s, step));
  }

  lemma NextKeepsValid(s: State, step: Step)
    requires Valid(s) && Enabled(s, step) && !step.FailPersist?
    ensures Valid(Next(s, step))
  {
    hide Valid;
    hide Enabled;
    hide Next;
    match step {
      case Login(c) => LoginKeepsValid(s, c);
      case Refresh(p, answer) => RefreshKeepsValid(s, p, answer);
      case Persist(p) => PersistKeepsValid(s, p);
      case _ => MoveKeepsValid(s, step);
    }
  }

  // ---- runs ------------------------------------------------------------------------------------

  ghost predicate AllEnabled(s: State, steps: seq<Step>)
    decreases |steps|
  {
    steps == [] || (Enabled(s, steps[0]) && AllEnabled(Next(s, steps[0]), steps[1..]))
  }

  ghost function Run(s: State, steps: seq<Step>): State
    requires AllEnabled(s, steps)
    decreases |steps|
  {
    if steps == [] then s else Run(Next(s, steps[0]), steps[1..])
  }

  ghost predicate PersistsSucceed(steps: seq<Step>) {
    forall k | 0 <= k < |steps| :: !steps[k].FailPersist?
  }

  /** Before anyone resolves: one credential is stored. */
  ghost predicate Initial(s: State) {
    s.lock.None? && s.issued == [s.stored] && s.spent == [] && forall p | 0 <= p < |s.procs| :: s.procs[p].Idle?
  }

  /** The place of a credential among those issued. */
  function Generation(issued: seq<Credential>, c: Credential): (i: nat)
    requires c in issued
    ensures i < |issued| && issued[i] == c && forall k | 0 <= k < i :: issued[k] != c
  {
    if issued[0] == c then 0
    else
      assert forall i | 0 < i < |issued| :: issued[i] == issued[1..][i - 1];
      1 + Generation(issued[1..], c)
  }

  lemma GenerationIs(issued: seq<Credential>, i: nat)
    requires Rotated(issued) && i < |issued|
    ensures issued[i] in issued && Generation(issued, issued[i]) == i
  {
  }

  lemma {:induction false} RunKeepsValid(s: State, steps: seq<Step>)
    requires Valid(s) && AllEnabled(s, steps) && PersistsSucceed(steps)
    ensures Valid(Run(s, steps))
    decreases |steps|
  {
    if steps != [] {
      assert !steps[0].FailPersist?;
      NextKeepsValid(s, steps[0]);
      assert PersistsSucceed(steps[1..]) by {
        forall k | 0 <= k < |steps[1..]| ensures !steps[1..][k].FailPersist? { assert steps[1..][k] == steps[k + 1]; }
      }
      RunKeepsValid(Next(s, steps[0]), steps[1..]);
    }
  }

  /** However many processes resolve and however their steps interleave, no refresh token
      is spent twice and the store ends with the newest credential or the one before a
      renewal that is not stored yet. */
  lemma NoTokenSpentTwice(s: State, steps: seq<Step>)
    requires Initial(s) && AllEnabled(s, steps) && PersistsSucceed(steps)
    ensures var t := Run(s, steps); NoDuplicates(t.spent) && Stores(t) && Exclusive(t)
  {
    RunKeepsValid(s, steps);
  }

  // ---- the accounts ---------------------------------------------------------------------------

  function Logins(steps: seq<Step>): nat {
    if steps == [] then 0 else (if steps[0].Login? then 1 else 0) + Logins(steps[1..])
  }

  /** Every credential was bought with a token or came from a login. */
  lemma {:induction false} EveryCredentialIsPaidFor(s: State, steps: seq<Step>)
    requires AllEnabled(s, steps)
    ensures |Run(s, steps).issued| - |s.issued| == |Run(s, steps).spent| - |s.spent| + Logins(steps)
    decreases |steps|
  {
    if steps != [] { EveryCredentialIsPaidFor(Next(s, steps[0]), steps[1..]); }
  }

  // ---- when a token is spent twice ---------------------------------------------------------------

  predicate Buys(step: Step) {
    step.Refresh? && step.answer.Some?
  }

  predicate StoresNew(step: Step) {
    step.Persist? || step.Login?
  }

  /** Whether a renewal was lost and nothing stored since. */
  predicate LostAfter(lost: bool, step: Step) {
    step.FailPersist? || (lost && !StoresNew(step))
  }

  lemma NewestIsUnspent(s: State)
    requires Rotated(s.issued) && AllOutdated(s)
    ensures s.issued[|s.issued| - 1].refresh !in s.spent
  {
    var token := s.issued[|s.issued| - 1].refresh;
    forall k | 0 <= k < |s.spent| ensures s.spent[k] != token {
      var i :| 0 <= i < |s.issued| - 1 && s.issued[i].refresh == s.spent[k];
    }
  }

  lemma LoginKeepsSound(s: State, c: Credential)
    requires Sound(s) && Enabled(s, Login(c))
    ensures Sound(Next(s, Login(c))) && !StaleStore(Next(s, Login(c)))
  {
    forall k | 0 <= k < |s.spent| ensures Outdated(s.issued + [c], s.spent[k]) {
      OutdatedGrows(s.issued, c, s.spent[k]);
    }
    forall p | 0 <= p < |s.procs| ensures !s.procs[p].Loaded? && !s.procs[p].Calling? {
      assert InSection(s.procs[p]) <==> s.lock == Some(p);
    }
    NewestIsUnspent(Next(s, Login(c)));
  }

  /** A refresh spends the stored token, for the second time exactly when it was spent. */
  lemma RefreshKeepsSound(s: State, p: nat, answer: Option<Credential>)
    requires Sound(s) && Enabled(s, Refresh(p, answer))
    ensures !Renewing(s) && Sound(Next(s, Refresh(p, answer)))
    ensures answer.None? ==> Next(s, Refresh(p, answer)).spent == s.spent && !Renewing(Next(s, Refresh(p, answer)))
    ensures answer.Some? ==> Next(s, Refresh(p, answer)).spent == s.spent + [s.stored.refresh]
  {
    assert InSection(s.procs[p]);
    if answer.Some? {
      var next := answer.value;
      forall k | 0 <= k < |s.spent| ensures Outdated(s.issued + [next], s.spent[k]) {
        OutdatedGrows(s.issued, next, s.spent[k]);
      }
      var i :| 0 <= i < |s.issued| && s.issued[i] == s.stored;
      assert (s.issued + [next])[i].refresh == s.stored.refresh;
      assert Outdated(s.issued + [next], s.stored.refresh);
    }
  }

  lemma PersistKeepsSound(s: State, step: Step)
    requires Sound(s) && Enabled(s, step) && (step.Persist? || step.FailPersist?)
    ensures Renewing(s) && Sound(Next(s, step)) && !Renewing(Next(s, step))
    ensures step.Persist? ==> !StaleStore(Next(s, step))
  {
    hide AllOutdated;
    hide Rotated;
    assert InSection(s.procs[step.p]);
    NewestIsUnspent(s);
    assert Next(s, step).issued == s.issued && Next(s, step).spent == s.spent;
    assert AllOutdated(Next(s, step)) by { SameOutdated(s, Next(s, step)); }
  }

  lemma SameOutdated(s: State, t: State)
    requires AllOutdated(s) && s.issued == t.issued && s.spent == t.spent
    ensures AllOutdated(t)
  {
  }

  lemma MoveKeepsSound(s: State, step: Step)
    requires Sound(s) && Enabled(s, step) && Moves(step)
    ensures var t := Next(s, step);
            && Sound(t) && (Renewing(t) <==> Renewing(s))
            && t.stored == s.stored && t.spent == s.spent && t.issued == s.issued
  {
    hide AllOutdated;
    hide Rotated;
    assert InSection(s.procs[step.p]) <==> s.lock == Some(step.p);
    SameOutdated(s, Next(s, step));
  }

  /** Every step keeps that the stored token was spent exactly when a renewal is under way or
      was lost, and spends a token twice exactly when it renews after a loss. */
  lemma NextKeepsSound(s: State, step: Step, lost: bool)
    requires Sound(s) && Enabled(s, step) && (StaleStore(s) <==> Renewing(s) || lost)
    ensures var t := Next(s, step);
            && Sound(t) && (StaleStore(t) <==> Renewing(t) || LostAfter(lost, step))
            && (NoDuplicates(t.spent) <==> NoDuplicates(s.spent) && !(lost && Buys(step)))
  {
    hide Sound;
    var t := Next(s, step);
    match step {
      case Login(c) => LoginKeepsSound(s, c); assert !Renewing(t);
      case Refresh(p, answer) =>
        RefreshKeepsSound(s, p, answer);
        if answer.Some? {
          assert t.spent[|s.spent|] == s.stored.refresh;
          OneMore(s.spent, s.stored.refresh);
          assert Renewing(t) by { assert Sound(s) && InSection(s.procs[p]); LockHolder(s, p); }
        }
      case Persist(p) => PersistKeepsSound(s, step);
      case FailPersist(p) => PersistKeepsSound(s, step);
      case _ => MoveKeepsSound(s, step);
    }
  }

  lemma LockHolder(s: State, p: nat)
    requires Sound(s) && p < |s.procs| && InSection(s.procs[p])
    ensures s.lock == Some(p)
  {
  }

  lemma OneMore(spent: seq<string>, token: string)
    ensures NoDuplicates(spent + [token]) <==> NoDuplicates(spent) && token !in spent
  {
    var all := spent + [token];
    if NoDuplicates(all) {
      forall i, j | 0 <= i < j < |spent| ensures spent[i] != spent[j] { assert all[i] != all[j]; }
      forall i | 0 <= i < |spent| ensures spent[i] != token { assert all[i] != all[|spent|]; }
    }
  }

  /** A renewal after a loss, with nothing stored between. */
  predicate Wastes(lost: bool, steps: seq<Step>)
    decreases |steps|
  {
    steps != [] && ((lost && Buys(steps[0])) || Wastes(LostAfter(lost, steps[0]), steps[1..]))
  }

  /** Step `k` renews and nothing is stored from step `from` up to it. */
  ghost predicate BuysFirst(steps: seq<Step>, from: nat, k: nat) {
    k < |steps| && Buys(steps[k]) && forall j | from <= j < k :: !StoresNew(steps[j])
  }

  ghost predicate LosesAt(steps: seq<Step>, i: nat, k: nat) {
    i < k < |steps| && steps[i].FailPersist? && BuysFirst(steps, i + 1, k)
  }

  /** Some failed persist is followed by a successful refresh with no persist or login
      between. */
  ghost predicate LosesThenBuys(steps: seq<Step>) {
    exists i: nat, k: nat :: LosesAt(steps, i, k)
  }

  lemma {:induction false} WastesMeans(lost: bool, steps: seq<Step>)
    ensures Wastes(lost, steps) <==> LosesThenBuys(steps) || (lost && exists k: nat :: BuysFirst(steps, 0, k))
    decreases |steps|
  {
    if steps != [] {
      var rest := steps[1..];
      WastesMeans(LostAfter(lost, steps[0]), rest);
      if Wastes(lost, steps) {
        if lost && Buys(steps[0]) {
          assert BuysFirst(steps, 0, 0);
        } else {
          WastesOn(lost, steps);
        }
      }
      if i: nat, k: nat :| LosesAt(steps, i, k) {
        ShiftBuys(steps, i + 1, k);
        if i > 0 { assert LosesAt(rest, i - 1, k - 1); }
      }
      if lost {
        if k: nat :| BuysFirst(steps, 0, k) {
          if k > 0 {
            assert !StoresNew(steps[0]);
            assert BuysFirst(steps, 1, k);
            ShiftBuys(steps, 1, k);
          }
        }
      }
    }
  }

  lemma WastesOn(lost: bool, steps: seq<Step>)
    requires steps != []
    requires var rest := steps[1..];
             LosesThenBuys(rest) || (LostAfter(lost, steps[0]) && exists k: nat :: BuysFirst(rest, 0, k))
    ensures LosesThenBuys(steps) || (lost && exists k: nat :: BuysFirst(steps, 0, k))
  {
    var rest := steps[1..];
    if LosesThenBuys(rest) {
      var i: nat, k: nat :| LosesAt(rest, i, k);
      UnshiftBuys(steps, i + 1, k);
      assert LosesAt(steps, i + 1, k + 1);
    } else {
      var k: nat :| BuysFirst(rest, 0, k);
      UnshiftBuys(steps, 0, k);
      if steps[0].FailPersist? {
        assert LosesAt(steps, 0, k + 1);
      } else {
        assert BuysFirst(steps, 0, k + 1);
      }
    }
  }

  lemma ShiftBuys(steps: seq<Step>, from: nat, k: nat)
    requires 0 < from <= k && BuysFirst(steps, from, k)
    ensures BuysFirst(steps[1..], from - 1, k - 1)
  {
    forall j | from - 1 <= j < k - 1 ensures !StoresNew(steps[1..][j]) { assert steps[1..][j] == steps[j + 1]; }
  }

  lemma UnshiftBuys(steps: seq<Step>, from: nat, k: nat)
    requires steps != [] && BuysFirst(steps[1..], from, k)
    ensures BuysFirst(steps, from + 1, k + 1)
  {
    forall j | from + 1 <= j < k + 1 ensures !StoresNew(steps[j]) { assert steps[1..][j - 1] == steps[j]; }
  }

  lemma {:induction false} RunSpendsTwice(s: State, steps: seq<Step>, lost: bool)
    requires Sound(s) && AllEnabled(s, steps) && (StaleStore(s) <==> Renewing(s) || lost)
    ensures Sound(Run(s, steps))
    ensures NoDuplicates(Run(s, steps).spent) <==> NoDuplicates(s.spent) && !Wastes(lost, steps)
    decreases |steps|
  {
    if steps != [] {
      NextKeepsSound(s, steps[0], lost);
      RunSpendsTwice(Next(s, steps[0]), steps[1..], LostAfter(lost, steps[0]));
    }
  }

  /** Over every interleaving, a token is spent twice exactly when some failed persist is
      followed by a successful refresh with no persist or login between. */
  lemma TokenSpentTwiceExactlyWhen(s: State, steps: seq<Step>)
    requires Initial(s) && AllEnabled(s, steps)
    ensures !NoDuplicates(Run(s, steps).spent) <==> LosesThenBuys(steps)
  {
    RunSpendsTwice(s, steps, false);
    WastesMeans(false, steps);
  }

  // ---- what the store goes through -------------------------------------------------------------

  lemma StepKeepsSound(s: State, step: Step)
    requires Sound(s) && Enabled(s, step)
    ensures Sound(Next(s, step))
  {
    hide Sound;
    match step {
      case Login(c) => LoginKeepsSound(s, c);
      case Refresh(p, answer) => RefreshKeepsSound(s, p, answer);
      case Persist(p) => PersistKeepsSound(s, step);
      case FailPersist(p) => PersistKeepsSound(s, step);
      case _ => MoveKeepsSound(s, step);
    }
  }

  /** The store's place among the issued credentials. */
  ghost function StoredAt(s: State): nat
    requires s.stored in s.issued
  {
    Generation(s.issued, s.stored)
  }

  /** A step that stores puts the newest credential there, and no other changes the store; a
      renewal comes to hold a credential newer than all before. */
  lemma StepStores(s: State, step: Step)
    requires Sound(s) && Enabled(s, step)
    ensures var t := Next(s, step);
            && s.issued <= t.issued && t.stored in t.issued && (Renewing(t) && !Renewing(s) ==> s.issued < t.issued)
            && StoredAt(t) == if StoresNew(step) then |t.issued| - 1 else StoredAt(s)
    ensures step.Persist? ==> Renewing(s)
    ensures step.Login? ==> s.issued < Next(s, step).issued
    ensures Renewing(s) ==> StoredAt(s) < |s.issued| - 1
  {
    hide Generation, AllOutdated, LoadedIsStored;
    var t := Next(s, step);
    var i :| 0 <= i < |s.issued| && s.issued[i] == s.stored;
    assert Rotated(t.issued) by { StepKeepsSound(s, step); }
    assert t.issued[i] == s.stored;
    GenerationIs(s.issued, i);
    GenerationIs(t.issued, i);
    GenerationIs(t.issued, |t.issued| - 1);
    if !step.Login? { assert InSection(s.procs[step.p]) <==> s.lock == Some(step.p); }
  }

  /** A step never puts an older credential in the place of a newer one, whatever is lost. */
  lemma NextNeverStoresOlder(s: State, step: Step)
    requires Sound(s) && Enabled(s, step)
    ensures var t := Next(s, step);
            && s.issued <= t.issued && t.stored in t.issued && StoredAt(s) <= StoredAt(t)
            && (StoresNew(step) ==> StoredAt(s) < StoredAt(t))
  {
    hide Generation, AllOutdated, LoadedIsStored, Rotated;
    StepStores(s, step);
  }

  ghost predicate StoresSome(steps: seq<Step>) {
    exists k :: 0 <= k < |steps| && StoresNew(steps[k])
  }

  /** Once anything is stored, the store has a credential at least as new as any then under
      way. */
  lemma {:induction false} RunStoresNewer(s: State, steps: seq<Step>, n: nat)
    requires Sound(s) && AllEnabled(s, steps) && n <= |s.issued| && (Renewing(s) ==> n < |s.issued|)
    ensures var t := Run(s, steps);
            && Sound(t) && s.issued <= t.issued
            && (StoresSome(steps) || n <= StoredAt(s) ==> n <= StoredAt(t))
    decreases |steps|
  {
    if steps != [] {
      var t, rest := Next(s, steps[0]), steps[1..];
      StepKeepsSound(s, steps[0]);
      StepStores(s, steps[0]);
      assert s.issued <= t.issued;
      RunStoresNewer(t, rest, n);
      if StoresSome(steps) && !StoresNew(steps[0]) {
        var k :| 0 <= k < |steps| && StoresNew(steps[k]);
        assert StoresNew(rest[k - 1]);
      }
    }
  }

  /** Over every run the store only ever gets newer, and does so when anything is stored. */
  lemma RunNeverStoresOlder(s: State, steps: seq<Step>)
    requires Sound(s) && AllEnabled(s, steps)
    ensures var t := Run(s, steps);
            && t.stored in t.issued && StoredAt(s) <= StoredAt(t) && (StoresSome(steps) ==> StoredAt(s) < StoredAt(t))
  {
    if steps != [] { StepStores(s, steps[0]); }
    RunStoresNewer(s, steps, StoredAt(s));
    if StoresSome(steps) { RunStoresNewer(s, steps, StoredAt(s) + 1); }
  }

  predicate IsOf(p: nat, step: Step) {
    !step.Login? && step.p == p
  }

  /** The steps of process `p`, in order. */
  function Own(p: nat, steps: seq<Step>): seq<Step> {
    if steps == [] then []
    else (if IsOf(p, steps[0]) then [steps[0]] else []) + Own(p, steps[1..])
  }

  lemma {:induction false} OthersLeaveItWaiting(s: State, p: nat, steps: seq<Step>)
    requires p < |s.procs| && AllEnabled(s, steps) && Own(p, steps) == []
    ensures |Run(s, steps).procs| == |s.procs| && Run(s, steps).procs[p] == s.procs[p]
    decreases |steps|
  {
    if steps != [] { OthersLeaveItWaiting(Next(s, steps[0]), p, steps[1..]); }
  }

  /** What the holder of the lock decides at `now`. */
  function Decision(stored: Credential, now: int): Phase {
    if now < stored.expires then Leaving(Got(stored)) else Calling(stored)
  }

  /** Where the holder of the lock is when these are its steps up to its decision. */
  predicate OnTheWay(s: State, p: nat, own: seq<Step>, now: int)
    requires p < |s.procs|
  {
    || (own == [Reread(p), Decide(p, now)] && s.procs[p].Holding?)
    || (own == [Decide(p, now)] && s.procs[p] == Loaded(s.stored))
    || (own == [] && s.procs[p] == Decision(s.stored, now))
  }

  predicate SameStore(s: State, t: State) {
    s.lock == t.lock && s.stored == t.stored && s.issued == t.issued && s.spent == t.spent
  }

  /** Nobody else touches the store while `p` has the lock. */
  lemma HolderSteps(s: State, p: nat, step: Step, own: seq<Step>, now: int)
    requires Sound(s) && s.lock == Some(p) && Enabled(s, step)
    requires OnTheWay(s, p, (if IsOf(p, step) then [step] else []) + own, now)
    ensures SameStore(s, Next(s, step)) && p < |Next(s, step).procs| && OnTheWay(Next(s, step), p, own, now)
  {
    hide AllOutdated, Rotated;
    assert InSection(s.procs[p]);
    if IsOf(p, step) {
      assert ([step] + own)[0] == step && ([step] + own)[1..] == own;
    } else {
      assert [] + own == own;
      if !step.Login? { assert !InSection(s.procs[step.p]); }
    }
  }

  lemma {:induction false} HolderDecides(s: State, p: nat, steps: seq<Step>, now: int)
    requires Sound(s) && s.lock == Some(p) && AllEnabled(s, steps) && OnTheWay(s, p, Own(p, steps), now)
    ensures var t := Run(s, steps); SameStore(s, t) && p < |t.procs| && OnTheWay(t, p, [], now)
    decreases |steps|
  {
    if steps != [] {
      HolderSteps(s, p, steps[0], Own(p, steps[1..]), now);
      StepKeepsSound(s, steps[0]);
      HolderDecides(Next(s, steps[0]), p, steps[1..], now);
    }
  }

  /** A process waits for the lock, and before it gets the lock others store a credential;
      their steps may come between any two of its own.  It decides on a newer credential than
      the one it waited with in the store, issued after it began to wait unless a renewal was
      then under way; while that is good it leaves with it, and from the lock on nothing is
      spent.  Failing persists change none of this. */
  lemma WaiterReuses(s: State, p: nat, before: seq<Step>, after: seq<Step>, now: int)
    requires Sound(s) && p < |s.procs| && s.procs[p].Waiting?
    requires AllEnabled(s, before) && Own(p, before) == [] && StoresSome(before)
    requires AllEnabled(Run(s, before), [Acquire(p)] + after) && Own(p, after) == [Reread(p), Decide(p, now)]
    ensures var m := Run(s, before);
            var t := Run(m, [Acquire(p)] + after);
            && t.stored in t.issued && StoredAt(s) < StoredAt(t)
            && (!Renewing(s) ==> |s.issued| <= StoredAt(t))
            && t.stored == m.stored && t.issued == m.issued && t.spent == m.spent
            && p < |t.procs|
            && t.procs[p] == if now < t.stored.expires then Leaving(Got(t.stored)) else Calling(t.stored)
  {
    var m := Run(s, before);
    OthersLeaveItWaiting(s, p, before);
    if Renewing(s) {
      StepStores(s, before[0]);
      RunStoresNewer(s, before, StoredAt(s) + 1);
    } else {
      RunStoresNewer(s, before, |s.issued|);
    }
    assert ([Acquire(p)] + after)[1..] == after;
    StepKeepsSound(m, Acquire(p));
    HolderDecides(Next(m, Acquire(p)), p, after, now);
  }

  lemma RunFirst(s: State, step: Step, rest: seq<Step>)
    requires Enabled(s, step) && AllEnabled(Next(s, step), rest)
    ensures AllEnabled(s, [step] + rest) && Run(s, [step] + rest) == Run(Next(s, step), rest)
  {
    assert ([step] + rest)[1..] == rest;
  }

  lemma RunSingle(s: State, step: Step)
    requires Enabled(s, step)
    ensures AllEnabled(s, [step]) && Run(s, [step]) == Next(s, step)
  {
    RunFirst(s, step, []);
  }

  /** A renewal that is lost on its way to the store leaves a spent token behind, and the
      next process spends it again. */
  lemma LostRenewalSpendsTwice(s: State, p: nat, q: nat, now: int, first: Credential, second: Credential)
    returns (steps: seq<Step>)
    requires Valid(s) && p < |s.procs| && q < |s.procs| && p != q
    requires s.procs[p] == Calling(s.stored) && s.procs[q].Waiting?
    requires s.stored.expires <= now && Unissued(s, first) && Unissued(s, second) && first.refresh != second.refresh
    ensures AllEnabled(s, steps) && !NoDuplicates(Run(s, steps).spent)
  {
    var a := Next(s, Refresh(p, Some(first)));
    var b := Next(a, FailPersist(p));
    var c := Next(b, Release(p));
    var d := Next(c, Acquire(q));
    var e := Next(d, Reread(q));
    var f := Next(e, Decide(q, now));
    assert f.procs[q] == Calling(s.stored) && f.issued == s.issued + [first] && f.spent == s.spent + [s.stored.refresh];
    var g := Next(f, Refresh(q, Some(second)));
    assert g.spent[|s.spent|] == g.spent[|s.spent| + 1];
    steps := [];
    RunFirst(f, Refresh(q, Some(second)), steps);
    steps := [Refresh(q, Some(second))] + steps;
    RunFirst(e, Decide(q, now), steps);
    steps := [Decide(q, now)] + steps;
    RunFirst(d, Reread(q), steps);
    steps := [Reread(q)] + steps;
    RunFirst(c, Acquire(q), steps);
    steps := [Acquire(q)] + steps;
    RunFirst(b, Release(p), steps);
    steps := [Release(p)] + steps;
    RunFirst(a, FailPersist(p), steps);
    steps := [FailPersist(p)] + steps;
    RunFirst(s, Refresh(p, Some(first)), steps);
    steps := [Refresh(p, Some(first))] + steps;
  }

  // ---- the locked section as the program runs it -----------------------------------------------

  /** The steps of one locked section. */
  function SectionSteps(p: nat, stored: Credential, now: int, answer: Option<Credential>, persists: bool): seq<Step> {
    [Reread(p)] + ([Decide(p, now)]
                   + (if now < stored.expires then [Release(p)] else RenewalSteps(p, answer, persists)))
  }

  function RenewalSteps(p: nat, answer: Option<Credential>, persists: bool): seq<Step> {
    [Refresh(p, answer)]
    + (if answer.None? then [Release(p)]
       else [if persists then Persist(p) else FailPersist(p)] + [Release(p)])
  }

  /** What the caller of the locked section is left with. */
  function SectionResult(stored: Credential, now: int, answer: Option<Credential>, persists: bool): Phase {
    if now < stored.expires then Resolved(stored)
    else if answer.None? then Rereading
    else if persists then Resolved(answer.value) else Failed
  }

  class CredentialStore {
    var lock: Option<nat>
    var stored: Credential
    var procs: seq<Phase>
    var issued: seq<Credential>
    var spent: seq<string>

    constructor (first: Credential, n: nat)
      ensures Initial(Now()) && |procs| == n && stored == first
    {
      lock, stored, procs, issued, spent := None, first, seq(n, _ => Idle), [first], [];
    }

    function Now(): State
      reads this
    {
      State(lock, stored, procs, issued, spent)
    }

    /** Re-read, refresh when still expired, persist, and give up the lock: one run of the
        protocol's steps, whose outcome is what the caller resolves to. */
    method RefreshUnderLock(p: nat, now: int, answer: Option<Credential>, persists: bool)
      returns (resolved: Option<Credential>)
      requires Sound(Now()) && p < |procs| && procs[p].Holding? && (answer.Some? ==> Unissued(Now(), answer.value))
      modifies this
      ensures AllEnabled(old(Now()), SectionSteps(p, old(stored), now, answer, persists))
      ensures Now() == Run(old(Now()), SectionSteps(p, old(stored), now, answer, persists))
      ensures procs == old(procs)[p := SectionResult(old(stored), now, answer, persists)] && lock.None?
      ensures resolved == if procs[p].Resolved? then Some(procs[p].credential) else None
      ensures Sound(Now()) && (old(Valid(Now())) && persists ==> Valid(Now()))
    {
      ghost var start := Now();
      var current := stored;
      var refreshErr, writeErr := false, false;
      resolved := None;
      if now < current.expires {
        resolved := Some(current);
      } else if answer.None? {
        refreshErr := true;
      } else {
        issued, spent := issued + [answer.value], spent + [current.refresh];
        if persists {
          resolved, stored := answer, answer.value;
        } else {
          writeErr := true;
        }
      }
      lock := None;
      procs := procs[p := if writeErr then Failed else if refreshErr then Rereading else Resolved(resolved.value)];
      SectionRuns(start, p, now, answer, persists);
      SectionKeeps(start, SectionSteps(p, start.stored, now, answer, persists), persists);
    }
  }

  lemma SectionKeeps(s: State, steps: seq<Step>, persists: bool)
    requires Sound(s) && s.lock.Some? && s.procs[s.lock.value].Holding? && AllEnabled(s, steps)
    requires persists ==> PersistsSucceed(steps)
    ensures Sound(Run(s, steps)) && (Valid(s) && persists ==> Valid(Run(s, steps)))
  {
    RunSpendsTwice(s, steps, StaleStore(s));
    if Valid(s) && persists { RunKeepsValid(s, steps); }
  }

  /** What a refused, a granted or a lost renewal comes to. */
  lemma RenewalRuns(s: State, p: nat, answer: Option<Credential>, persists: bool)
    requires p < |s.procs| && s.procs[p] == Calling(s.stored) && (answer.Some? ==> Unissued(s, answer.value))
    ensures AllEnabled(s, RenewalSteps(p, answer, persists))
    ensures Run(s, RenewalSteps(p, answer, persists)) ==
            if answer.None? then s.(lock := None, procs := s.procs[p := Rereading])
            else State(None, if persists then answer.value else s.stored,
                       s.procs[p := if persists then Resolved(answer.value) else Failed],
                       s.issued + [answer.value], s.spent + [s.stored.refresh])
  {
    hide Run;
    hide AllEnabled;
    var d := Next(s, Refresh(p, answer));
    if answer.None? {
      RunSingle(d, Release(p));
      RunFirst(s, Refresh(p, answer), [Release(p)]);
    } else {
      var persist := if persists then Persist(p) else FailPersist(p);
      RunSingle(Next(d, persist), Release(p));
      RunFirst(d, persist, [Release(p)]);
      RunFirst(s, Refresh(p, answer), [persist] + [Release(p)]);
    }
  }

  /** What the steps of a locked section come to. */
  lemma SectionRuns(s: State, p: nat, now: int, answer: Option<Credential>, persists: bool)
    requires p < |s.procs| && s.procs[p].Holding? && (answer.Some? ==> Unissued(s, answer.value))
    ensures var steps := SectionSteps(p, s.stored, now, answer, persists);
            && AllEnabled(s, steps) && (persists ==> PersistsSucceed(steps))
            && Run(s, steps) ==
               var procs := s.procs[p := SectionResult(s.stored, now, answer, persists)];
               if now < s.stored.expires || answer.None? then s.(lock := None, procs := procs)
               else State(None, if persists then answer.value else s.stored, procs, s.issued + [answer.value],
                          s.spent + [s.stored.refresh])
  {
    hide Unissued;
    hide Run;
    hide AllEnabled;
    var b := Next(s, Reread(p));
    var c := Next(b, Decide(p, now));
    var rest := if now < s.stored.expires then [Release(p)] else RenewalSteps(p, answer, persists);
    if now < s.stored.expires {
      RunSingle(c, Release(p));
    } else {
      SameIssued(s, c, answer);
      RenewalRuns(c, p, answer, persists);
    }
    RunFirst(b, Decide(p, now), rest);
    RunFirst(s, Reread(p), [Decide(p, now)] + rest);
  }

  lemma SameIssued(s: State, t: State, answer: Option<Credential>)
    requires s.issued == t.issued && (answer.Some? ==> Unissued(s, answer.value))
    ensures answer.Some? ==> Unissued(t, answer.value)
  {
  }
}
