/** The detector of stuck loops: it follows tool calls by their fingerprints in a short
    window and a streak, and agrees with a check of the whole history.  A fingerprint is
    the number its sixteen hexadecimal digits write. */
module StuckDetector {

  const MAX_REPEAT_TOOL_CALLS := 10
  const MAX_TOOL_ERROR_STREAK := 10
  const RECENT_WINDOW_SIZE := 12

  // ---- the check on the whole history ---------------------------------------------------

  /** The element at `k` is the one `period` places before. */
  predicate Repeats(history: seq<nat>, k: int, period: nat) {
    period <= k < |history| && history[k] == history[k - period]
  }

  /** The last `n` elements are all equal. */
  ghost predicate EndsUniform(history: seq<nat>, n: nat) {
    |history| >= n && forall k | |history| - n < k < |history| :: Repeats(history, k, 1)
  }

  /** The history ends with three times the same block, whose neighbours differ. */
  ghost predicate EndsInCycle(history: seq<nat>, length: nat) {
    && |history| >= 3 * length
    && (forall k | |history| - 2 * length <= k < |history| :: Repeats(history, k, length))
    && (forall k | |history| - 3 * length < k < |history| - 2 * length :: !Repeats(history, k, 1))
  }

  ghost predicate Stuck(history: seq<nat>) {
    EndsUniform(history, MAX_REPEAT_TOOL_CALLS) || EndsInCycle(history, 2) || EndsInCycle(history, 3)
  }

  /** How many of the last elements equal the last one. */
  function Streak(history: seq<nat>): (n: nat)
    ensures n <= |history|
  {
    if history == [] then 0
    else if |history| >= 2 && history[|history| - 1] == history[|history| - 2] then 1 + Streak(history[..|history| - 1])
    else 1
  }

  lemma {:induction false} StreakIsUniform(history: seq<nat>, n: nat)
    requires n > 0
    ensures EndsUniform(history, n) <==> Streak(history) >= n
  {
    if |history| >= 2 && n > 1 {
      var before := history[..|history| - 1];
      StreakIsUniform(before, n - 1);
      forall k | 0 <= k < |before| ensures Repeats(before, k, 1) == Repeats(history, k, 1) {}
      if EndsUniform(history, n) {
        assert Repeats(history, |history| - 1, 1);
        forall k | |before| - (n - 1) < k < |before| ensures Repeats(before, k, 1) { assert Repeats(history, k, 1); }
      }
      if Streak(history) >= n {
        forall k | |history| - n < k < |history| ensures Repeats(history, k, 1) {
          if k < |before| { assert Repeats(before, k, 1); }
        }
      }
    }
  }

  lemma StreakGrows(history: seq<nat>, x: nat)
    ensures Streak(history + [x]) == if history != [] && history[|history| - 1] == x then Streak(history) + 1 else 1
  {
    assert (history + [x])[..|history|] == history;
  }

  // ---- the window -----------------------------------------------------------------------------

  /** The window is full before it forgets anything. */
  ghost predicate IsWindow(window: seq<nat>, forgotten: seq<nat>) {
    |window| <= RECENT_WINDOW_SIZE && (forgotten == [] || |window| == RECENT_WINDOW_SIZE)
  }

  /** A window long enough for the cycle shows it exactly when the history ends in it. */
  lemma WindowShowsCycle(forgotten: seq<nat>, window: seq<nat>, length: nat)
    requires |window| >= 3 * length && length > 0
    ensures EndsInCycle(window, length) <==> EndsInCycle(forgotten + window, length)
  {
    var d, history := |forgotten|, forgotten + window;
    forall k, p: nat | 0 < p <= k < |window|
      ensures Repeats(window, k, p) == Repeats(history, d + k, p)
    {
    }
    if EndsInCycle(window, length) {
      forall k | |history| - 2 * length <= k < |history| ensures Repeats(history, k, length) {
        assert Repeats(window, k - d, length);
      }
      forall k | |history| - 3 * length < k < |history| - 2 * length ensures !Repeats(history, k, 1) {
        assert !Repeats(window, k - d, 1);
      }
    }
    if EndsInCycle(history, length) {
      forall k | |window| - 2 * length <= k < |window| ensures Repeats(window, k, length) {
        assert Repeats(history, d + k, length);
      }
      forall k | |window| - 3 * length < k < |window| - 2 * length ensures !Repeats(window, k, 1) {
        assert !Repeats(history, d + k, 1);
      }
    }
  }

  lemma WindowShowsStuck(forgotten: seq<nat>, window: seq<nat>)
    requires IsWindow(window, forgotten)
    ensures Stuck(forgotten + window)
       <==> Streak(forgotten + window) >= MAX_REPEAT_TOOL_CALLS || EndsInCycle(window, 2) || EndsInCycle(window, 3)
  {
    StreakIsUniform(forgotten + window, MAX_REPEAT_TOOL_CALLS);
    if forgotten == [] {
      assert forgotten + window == window;
    } else {
      WindowShowsCycle(forgotten, window, 2);
      WindowShowsCycle(forgotten, window, 3);
    }
  }

  function Slide(window: seq<nat>, x: nat): seq<nat> {
    if |window| >= RECENT_WINDOW_SIZE then (window + [x])[1..] else window + [x]
  }

  function Forget(forgotten: seq<nat>, window: seq<nat>): seq<nat> {
    if |window| >= RECENT_WINDOW_SIZE then forgotten + [window[0]] else forgotten
  }

  lemma WindowSlides(forgotten: seq<nat>, window: seq<nat>, x: nat)
    requires IsWindow(window, forgotten)
    ensures IsWindow(Slide(window, x), Forget(forgotten, window))
    ensures Forget(forgotten, window) + Slide(window, x) == forgotten + window + [x]
    ensures Slide(window, x)[|Slide(window, x)| - 1] == x
  {
    if |window| >= RECENT_WINDOW_SIZE { assert window + [x] == [window[0]] + (window + [x])[1..]; }
  }

  // ---- the detector ------------------------------------------------------------------------

  class Detector {
    var recent: seq<nat>
    var lastPrint: int
    var streak: nat
    var lastErrTool: string
    var errStreak: nat
    ghost var forgotten: seq<nat>
    ghost var outcomes: seq<(string, bool)>

    /** All fingerprints observed so far. */
    ghost function History(): seq<nat>
      reads this`recent, this`forgotten
    {
      forgotten + recent
    }

    ghost predicate CallsValid()
      reads this`recent, this`forgotten, this`lastPrint, this`streak
    {
      && IsWindow(recent, forgotten) && streak == Streak(History())
      && lastPrint == if recent == [] then -1 else recent[|recent| - 1]
    }

    ghost predicate ErrorsValid()
      reads this`lastErrTool, this`errStreak, this`outcomes
    {
      errStreak == ErrorStreak(outcomes) && lastErrTool == if outcomes == [] then "" else outcomes[|outcomes| - 1].0
    }

    constructor ()
      ensures CallsValid() && ErrorsValid() && History() == [] && outcomes == []
    {
      recent, lastPrint, streak, lastErrTool, errStreak := [], -1, 0, "", 0;
      forgotten, outcomes := [], [];
    }

    /** The candidate block of the window's end, compared with the two behind it. */
    method EndRepeats(length: nat) returns (found: bool)
      requires (length == 2 || length == 3) && |recent| >= 3 * length
      ensures found <==> EndsInCycle(recent, length)
    {
      var need := 3 * length;
      var tail := recent[|recent| - need..];
      for i := 1 to length
        invariant forall k | 0 < k < i :: tail[k] != tail[k - 1]
      {
        if tail[i] == tail[i - 1] {
          assert Repeats(recent, |recent| - need + i, 1);
          return false;
        }
      }
      for i := length to need
        invariant forall k | length <= k < i :: tail[k] == tail[k % length]
      {
        if tail[i] != tail[i % length] {
          MismatchBreaksCycle(recent, length, i);
          return false;
        }
      }
      MatchesMakeCycle(recent, length);
      return true;
    }

    method DetectCycle() returns (found: bool)
      ensures found <==> EndsInCycle(recent, 2) || EndsInCycle(recent, 3)
    {
      if |recent| < 6 { return false; }
      found := EndRepeats(2);
      if !found && |recent| >= 9 {
        found := EndRepeats(3);
      }
    }

    /** The report is what a check of the whole history says. */
    method Observe(fingerprint: nat) returns (stuck: bool)
      requires CallsValid()
      modifies this`recent, this`lastPrint, this`streak, this`forgotten
      ensures CallsValid() && History() == old(History()) + [fingerprint]
      ensures stuck <==> Stuck(History())
    {
      StreakGrows(History(), fingerprint);
      WindowSlides(forgotten, recent, fingerprint);
      ghost var kept := Forget(forgotten, recent);
      WindowShowsStuck(kept, Slide(recent, fingerprint));
      if fingerprint == lastPrint {
        streak := streak + 1;
      } else {
        streak := 1;
        lastPrint := fingerprint;
      }
      recent := recent + [fingerprint];
      if |recent| > RECENT_WINDOW_SIZE { recent := recent[1..]; }
      forgotten := kept;
      if streak >= MAX_REPEAT_TOOL_CALLS { return true; }
      stuck := DetectCycle();
    }

    /** Reports by tool name; a success does not clear the count but starts it at one. */
    method ObserveError(name: string, isError: bool) returns (stuck: bool)
      requires ErrorsValid()
      modifies this`lastErrTool, this`errStreak, this`outcomes
      ensures ErrorsValid() && outcomes == old(outcomes) + [(name, isError)]
      ensures stuck <==> ErrorStreak(outcomes) >= MAX_TOOL_ERROR_STREAK
    {
      ErrorStreakGrows(outcomes, name, isError);
      if isError && name == lastErrTool {
        errStreak := errStreak + 1;
      } else {
        errStreak := 1;
        lastErrTool := name;
      }
      outcomes := outcomes + [(name, isError)];
      stuck := errStreak >= MAX_TOOL_ERROR_STREAK;
    }
  }

  lemma ByRemainder(k: nat, length: nat)
    requires (length == 2 || length == 3) && k < 3 * length
    ensures k % length == if k < length then k else if k < 2 * length then k - length else k - 2 * length
  {
  }

  /** An element of the tail that differs from its place in the block breaks the cycle. */
  lemma MismatchBreaksCycle(window: seq<nat>, length: nat, i: nat)
    requires (length == 2 || length == 3) && 3 * length <= |window| && length <= i < 3 * length
    requires var tail := window[|window| - 3 * length..]; tail[i] != tail[i % length]
    ensures !EndsInCycle(window, length)
  {
    var d := |window| - 3 * length;
    ByRemainder(i, length);
    if i < 2 * length {
      assert !Repeats(window, d + i, length);
    } else {
      assert !Repeats(window, d + i, length) || !Repeats(window, d + i - length, length);
    }
  }

  lemma MatchesMakeCycle(window: seq<nat>, length: nat)
    requires (length == 2 || length == 3) && 3 * length <= |window|
    requires var tail := window[|window| - 3 * length..];
             && (forall k | 0 < k < length :: tail[k] != tail[k - 1])
             && (forall k | length <= k < 3 * length :: tail[k] == tail[k % length])
    ensures EndsInCycle(window, length)
  {
    var d, tail := |window| - 3 * length, window[|window| - 3 * length..];
    forall k | d + length <= k < |window| ensures Repeats(window, k, length) {
      ByRemainder(k - d, length);
      ByRemainder(k - d - length, length);
      assert tail[k - d] == tail[(k - d) % length];
      assert k - d - length >= length ==> tail[k - d - length] == tail[(k - d - length) % length];
    }
    forall k | d < k < d + length ensures !Repeats(window, k, 1) { assert tail[k - d] != tail[k - d - 1]; }
  }

  // ---- the error count -------------------------------------------------------------------------

  function ErrorStreak(outcomes: seq<(string, bool)>): (n: nat)
    ensures n <= |outcomes| && (outcomes != [] ==> n > 0)
  {
    if outcomes == [] then 0
    else
      var last := outcomes[|outcomes| - 1];
      if |outcomes| >= 2 && last.1 && last.0 == outcomes[|outcomes| - 2].0
      then 1 + ErrorStreak(outcomes[..|outcomes| - 1])
      else 1
  }

  lemma ErrorStreakGrows(outcomes: seq<(string, bool)>, name: string, isError: bool)
    ensures ErrorStreak(outcomes + [(name, isError)])
         == if isError && outcomes != [] && name == outcomes[|outcomes| - 1].0 then ErrorStreak(outcomes) + 1 else 1
  {
    assert (outcomes + [(name, isError)])[..|outcomes|] == outcomes;
  }

  /** `n` counted calls of one tool are `n - 1` failures behind one call of that tool,
      which may have succeeded. */
  lemma {:induction false} ErrorStreakCounts(outcomes: seq<(string, bool)>, n: nat)
    requires n > 0
    ensures ErrorStreak(outcomes) >= n <==>
      && |outcomes| >= n
      && (forall k | |outcomes| - n <= k < |outcomes| :: outcomes[k].0 == outcomes[|outcomes| - 1].0)
      && (forall k | |outcomes| - n < k < |outcomes| :: outcomes[k].1)
  {
    if outcomes != [] && n > 1 {
      ErrorStreakCounts(outcomes[..|outcomes| - 1], n - 1);
    }
  }

  /** So nine failures behind a success are reported as ten. */
  lemma SuccessCounts(name: string, outcomes: seq<(string, bool)>)
    requires |outcomes| == 10 && outcomes[0] == (name, false)
    requires forall k | 0 < k < 10 :: outcomes[k] == (name, true)
    ensures ErrorStreak(outcomes) >= MAX_TOOL_ERROR_STREAK
  {
    ErrorStreakCounts(outcomes, 10);
  }

  // ---- how soon a loop is noticed -----------------------------------------------------------------

  /** The last `n` calls repeat with some period. */
  ghost predicate EndsPeriodic(history: seq<nat>, period: nat, n: nat) {
    |history| >= n && forall k | |history| - n + period <= k < |history| :: Repeats(history, k, period)
  }

  /** Three equal blocks in a row, from `s` on, end a prefix in a cycle. */
  lemma ThreeBlocks(history: seq<nat>, s: nat, length: nat)
    requires s + 3 * length <= |history| && length > 0
    requires forall k | s + length <= k < s + 3 * length :: Repeats(history, k, length)
    requires forall k | s < k < s + length :: !Repeats(history, k, 1)
    ensures EndsInCycle(history[..s + 3 * length], length)
  {
    var prefix := history[..s + 3 * length];
    forall k | s + length <= k < s + 3 * length ensures Repeats(prefix, k, length) {
      assert Repeats(history, k, length);
    }
    forall k | s < k < s + length ensures !Repeats(prefix, k, 1) { assert !Repeats(history, k, 1); }
  }

  lemma {:induction false} AllTheSame(history: seq<nat>, period: nat, k: nat)
    requires 1 <= period <= 11 && EndsPeriodic(history, period, 11) && |history| - 11 <= k < |history|
    requires forall j | |history| - 11 <= j < |history| - 11 + period :: history[j] == history[|history| - 11]
    ensures history[k] == history[|history| - 11]
  {
    if k >= |history| - 11 + period {
      assert Repeats(history, k, period);
      AllTheSame(history, period, k - period);
    }
  }

  lemma UniformIsNoticed(history: seq<nat>, period: nat)
    requires 1 <= period <= 3 && EndsPeriodic(history, period, 11)
    requires forall j | |history| - 11 <= j < |history| - 11 + period :: history[j] == history[|history| - 11]
    ensures Stuck(history)
  {
    forall k | |history| - 10 < k < |history| ensures Repeats(history, k, 1) {
      AllTheSame(history, period, k);
      AllTheSame(history, period, k - 1);
    }
    assert EndsUniform(history, 10);
  }

  /** Calls that repeat with a period of at most three are noticed within eleven. */
  lemma PeriodicIsNoticed(history: seq<nat>, period: nat) returns (n: nat)
    requires 1 <= period <= 3 && EndsPeriodic(history, period, 11)
    ensures |history| - 11 < n <= |history| && Stuck(history[..n])
  {
    var s := |history| - 11;
    var a, b, c := history[s], history[s + 1], history[s + 2];
    if period == 1 || (a == b && (period == 2 || b == c)) {
      n := |history|;
      assert history[..n] == history;
      UniformIsNoticed(history, period);
    } else if period == 2 {
      n := s + 6;
      ThreeBlocks(history, s, 2);
    } else {
      assert Repeats(history, s + 3, 3) && Repeats(history, s + 4, 3);
      var shift := if a != b && b != c then 0 else if a == b then 1 else 2;
      n := s + shift + 9;
      ThreeBlocks(history, s + shift, 3);
    }
  }

  /** Ten calls may not be enough. */
  lemma TenMayPass(a: nat, b: nat, n: nat)
    requires a != b && n <= 10
    ensures EndsPeriodic([b, a, a, b, a, a, b, a, a, b], 3, 10)
    ensures !Stuck([b, a, a, b, a, a, b, a, a, b][..n])
  {
    var h := [b, a, a, b, a, a, b, a, a, b];
    var p := h[..n];
    assert forall k | 0 <= k < n :: p[k] == h[k];
    if n == 10 { assert !Repeats(p, 9, 1); }
    if n >= 6 { assert !Repeats(p, n - 1, 2) || !Repeats(p, n - 2, 2); }
    if n >= 9 { assert Repeats(p, n - 8, 1) || Repeats(p, n - 7, 1); }
  }
}
