/**
  When a synchronisation runs and whose result is recorded: internal/app/github_auto_sync.go and the statements
  on the single row of github_sync_state.
 */
module SyncSchedule {
  import opened Status

  const MIN_INT64: int := -0x8000_0000_0000_0000
  const MAX_INT64: int := 0x7fff_ffff_ffff_ffff

  predicate IsInt64(n: int) {
    MIN_INT64 <= n <= MAX_INT64
  }

  /** Two's complement arithmetic keeps the low 64 bits. */
  function Wrap(n: int): (r: int)
    ensures IsInt64(r) && (r - n) % 0x1_0000_0000_0000_0000 == 0
    ensures IsInt64(n) ==> r == n
  {
    var low := n % 0x1_0000_0000_0000_0000;
    if low > MAX_INT64 then low - 0x1_0000_0000_0000_0000 else low
  }

  /** saturatedSubtract with the machine's subtraction. */
  function SaturatedSubtract(value: int, amount: int): int
    requires IsInt64(value) && IsInt64(amount)
  {
    if value < 0 && amount > Wrap(value - MIN_INT64) then MIN_INT64 else Wrap(value - amount)
  }

  function Max(a: int, b: int): int {
    if a < b then b else a
  }

  /** It saturates below, and is right whenever the difference does not run over above: always for amounts from 0. */
  lemma SaturatedSubtractIsExact(value: int, amount: int)
    requires IsInt64(value) && IsInt64(amount)
    ensures SaturatedSubtract(value, amount) == Max(MIN_INT64, value - amount) <==> value - amount <= MAX_INT64
    ensures amount >= 0 ==> SaturatedSubtract(value, amount) == Max(MIN_INT64, value - amount)
  {
    if value < 0 {
      assert Wrap(value - MIN_INT64) == value - MIN_INT64;
    }
    if value - amount > MAX_INT64 {
      assert !IsInt64(Max(MIN_INT64, value - amount));
    }
  }

  /** A negative amount may run over: the one case the function does not saturate. */
  lemma SaturatedSubtractRunsOver()
    ensures SaturatedSubtract(MAX_INT64, -1) == MIN_INT64
  {
  }

  // ----- the row -----

  datatype Row = Row(
    runId: string, lastAttempt: Option<int>, lastCompleted: Option<int>, succeeded: nat, failed: nat,
    runError: string)

  const INITIAL_ROW: Row := Row("", None, None, 0, 0, "")

  predicate IsDue(row: Row, dueBefore: int) {
    row.lastAttempt.None? || row.lastAttempt.value <= dueBefore
  }

  function Begun(row: Row, run: string, at: int): Row {
    row.(runId := run, lastAttempt := Some(at), runError := "")
  }

  function Finished(row: Row, at: int, succeeded: nat, failed: nat, runError: string): Row {
    row.(lastCompleted := Some(at), succeeded := succeeded, failed := failed, runError := runError)
  }

  datatype Outcome = Outcome(succeeded: nat, failed: nat, error: string)

  class SyncState {
    var row: Row

    constructor ()
      ensures row == INITIAL_ROW
    {
      row := INITIAL_ROW;
    }

    /** AcquireGitHubAutoSync: one statement decides and takes the interval. */
    method Acquire(run: string, at: int, dueBefore: int) returns (acquired: bool)
      modifies this
      ensures acquired <==> IsDue(old(row), dueBefore)
      ensures row == if acquired then Begun(old(row), run, at) else old(row)
    {
      acquired := row.lastAttempt.None? || row.lastAttempt.value <= dueBefore;
      if acquired {
        row := row.(runId := run, lastAttempt := Some(at), runError := "");
      }
    }

    /** StartGitHubSync: a manual run takes the interval whether it is due or not. */
    method Start(run: string, at: int)
      modifies this
      ensures row == Begun(old(row), run, at)
    {
      row := row.(runId := run, lastAttempt := Some(at), runError := "");
    }

    /** CompleteGitHubSync: only the run that began last is recorded. */
    method Complete(run: string, at: int, outcome: Outcome) returns (recorded: bool)
      modifies this
      ensures recorded <==> old(row).runId == run
      ensures row == if recorded then Finished(old(row), at, outcome.succeeded, outcome.failed, outcome.error)
                     else old(row)
    {
      recorded := row.runId == run;
      if recorded {
        row := row.(lastCompleted := Some(at), succeeded := outcome.succeeded, failed := outcome.failed,
          runError := outcome.error);
      }
    }

    /** SyncIfDue when nobody else touches the row: it runs exactly when due, and then always leaves a result. */
    method SyncIfDue(
      run: string, now: int, interval: int, configError: Option<string>, outcome: Outcome, completedAt: int)
      returns (ran: bool, usedInterval: int)
      requires IsInt64(now) && now >= 0 && IsInt64(interval)
      modifies this
      ensures usedInterval == if configError.Some? then DEFAULT_INTERVAL else interval
      ensures usedInterval >= 0 ==>
                (ran <==> old(row).lastAttempt.None? || now - old(row).lastAttempt.value >= usedInterval)
      ensures !ran ==> row == old(row)
      ensures ran ==>
                row.runId == run && row.lastAttempt == Some(now) && row.lastCompleted == Some(completedAt)
      ensures ran && configError.Some? ==>
                row.succeeded == 0 && row.failed == 0 && row.runError == configError.value
      ensures ran && configError.None? ==>
                row.succeeded == outcome.succeeded && row.failed == outcome.failed && row.runError == outcome.error
    {
      usedInterval := if configError.Some? then DEFAULT_INTERVAL else interval;
      SaturatedSubtractIsExact(now, usedInterval);
      var acquired := Acquire(run, now, SaturatedSubtract(now, usedInterval));
      if !acquired {
        return false, usedInterval;
      }
      if configError.Some? {
        ran := Complete(run, completedAt, Outcome(0, 0, configError.value));
        return;
      }
      ran := Complete(run, completedAt, outcome);
    }
  }

  /** config.DefaultAutoSyncIntervalSeconds. */
  const DEFAULT_INTERVAL: int := 3600

  // ----- any interleaving of runs -----

  datatype Event =
    | Acquires(run: string, at: int, interval: int)
    | Starts(run: string, at: int)
    | Completes(run: string, at: int, outcome: Outcome)

  /** What the event does to the row, and whether it was granted or recorded. */
  function Happens(row: Row, e: Event): (Row, bool)
    requires e.Acquires? ==> IsInt64(e.at) && IsInt64(e.interval)
  {
    match e
    case Acquires(run, at, interval) =>
      if IsDue(row, SaturatedSubtract(at, interval)) then (Begun(row, run, at), true) else (row, false)
    case Starts(run, at) => (Begun(row, run, at), true)
    case Completes(run, at, outcome) =>
      if row.runId == run then (Finished(row, at, outcome.succeeded, outcome.failed, outcome.error), true)
      else (row, false)
  }

  datatype History = History(events: seq<Event>, rows: seq<Row>, granted: seq<bool>)

  ghost predicate IsHistory(h: History) {
    && |h.rows| == |h.events| + 1 && |h.granted| == |h.events| && h.rows[0] == INITIAL_ROW
    && forall i {:trigger EventAt(h, i)} :: 0 <= i < |h.events| ==> EventAt(h, i)
  }

  /** Times are seconds since 1970 and intervals are not negative. */
  ghost predicate EventAt(h: History, i: nat)
    requires i < |h.events| && |h.rows| == |h.events| + 1 && |h.granted| == |h.events|
  {
    var e := h.events[i];
    && (e.Acquires? ==> IsInt64(e.at) && e.at >= 0 && IsInt64(e.interval) && e.interval >= 0)
    && (h.rows[i + 1], h.granted[i]) == Happens(h.rows[i], e)
  }

  /** A run began here: a granted acquire or a manual start. */
  predicate Begins(h: History, i: nat)
    requires i < |h.events| && |h.granted| == |h.events|
  {
    h.events[i].Starts? || (h.events[i].Acquires? && h.granted[i])
  }

  /** Run ids are fresh: not empty, and no two beginnings share one. */
  ghost predicate FreshRuns(h: History)
    requires |h.granted| == |h.events|
  {
    && (forall i :: 0 <= i < |h.events| && Begins(h, i) ==> h.events[i].run != "")
    && (forall i, j :: 0 <= i < j < |h.events| && Begins(h, i) && Begins(h, j) ==>
          h.events[i].run != h.events[j].run)
  }

  /** No run began between two positions. */
  predicate QuietBetween(h: History, first: nat, past: nat)
    requires |h.granted| == |h.events| && past <= |h.events|
  {
    forall k :: first <= k < past ==> !Begins(h, k)
  }

  lemma {:induction false} QuietKeepsRun(h: History, first: nat, past: nat)
    requires IsHistory(h) && first <= past <= |h.events| && QuietBetween(h, first, past)
    ensures h.rows[past].runId == h.rows[first].runId && h.rows[past].lastAttempt == h.rows[first].lastAttempt
    decreases past
  {
    if first < past {
      QuietKeepsRun(h, first, past - 1);
      assert EventAt(h, past - 1) && !Begins(h, past - 1);
    }
  }

  /** The row names the last run that began. */
  lemma {:induction false} RowNamesLastRun(h: History, i: nat) returns (last: Option<nat>)
    requires IsHistory(h) && i <= |h.events|
    ensures last.Some? ==>
              last.value < i && Begins(h, last.value) && QuietBetween(h, last.value + 1, i)
              && h.rows[i].runId == h.events[last.value].run
              && h.rows[i].lastAttempt == Some(h.events[last.value].at)
    ensures last.None? ==> QuietBetween(h, 0, i) && h.rows[i].runId == "" && h.rows[i].lastAttempt.None?
  {
    if i == 0 {
      return None;
    }
    assert EventAt(h, i - 1);
    if Begins(h, i - 1) {
      return Some(i - 1);
    }
    last := RowNamesLastRun(h, i - 1);
  }

  /** A completion is recorded exactly when no other run has begun since its own. */
  lemma CompletionRecordedIffLatest(h: History, begun: nat, i: nat)
    requires IsHistory(h) && FreshRuns(h) && begun < i < |h.events|
    requires Begins(h, begun) && h.events[i].Completes? && h.events[i].run == h.events[begun].run
    ensures h.granted[i] <==> QuietBetween(h, begun + 1, i)
  {
    assert EventAt(h, i) && EventAt(h, begun);
    var last := RowNamesLastRun(h, i);
    assert last.Some?;
    if QuietBetween(h, begun + 1, i) {
      assert last.value == begun;
    }
  }

  /** What a row reports as the last result was completed by a run, not by one that was overtaken. */
  lemma OvertakenRunsLeaveNoTrace(h: History, i: nat)
    requires IsHistory(h) && i < |h.events| && h.events[i].Completes? && !h.granted[i]
    ensures h.rows[i + 1] == h.rows[i]
  {
    assert EventAt(h, i);
  }

  /** An automatic run is granted exactly when none has begun yet or the last began at least an interval ago. */
  lemma GrantedOneIntervalAfterLast(h: History, i: nat)
    requires IsHistory(h) && i < |h.events| && h.events[i].Acquires?
    ensures h.granted[i] <==>
              forall k :: 0 <= k < i && Begins(h, k) && QuietBetween(h, k + 1, i) ==>
                h.events[i].at - h.events[k].at >= h.events[i].interval
  {
    assert EventAt(h, i);
    SaturatedSubtractIsExact(h.events[i].at, h.events[i].interval);
    var last := RowNamesLastRun(h, i);
    if last.Some? {
      forall k | 0 <= k < i && Begins(h, k) && QuietBetween(h, k + 1, i)
        ensures k == last.value
      {
      }
    }
  }
}
