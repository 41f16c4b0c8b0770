/** The default-visible runs: a policy over single runs, closed over execution ancestors. */
module Visibility {
  import opened Types
  import opened Entities

  const DEFAULT_TERMINAL_VISIBILITY_MS: int := 60 * 60 * 1_000
  const HOOK_ONLY_STALE_VISIBILITY_MS: int := 24 * 60 * 60 * 1_000

  // ----- the policy over one run

  function SaturatingAdd(a: int, b: int): int {
    Max(I64_MIN, Min(a + b, I64_MAX))
  }

  predicate Reached(t: Timing, startMs: int, windowMs: int) {
    t.nowMs >= SaturatingAdd(startMs, windowMs)
  }

  /** A finish time, or else the end of the native session. */
  function EffectiveLifecycleEnd(m: Model, run: TaskRun): Option<int> {
    if run.finishedAtMs.Some? then run.finishedAtMs
    else if run.runId in m.history && m.history[run.runId].nativeSessionEnd.Some? then
      Some(m.history[run.runId].nativeSessionEnd.value.atMs)
    else None
  }

  predicate HookOnlyStale(m: Model, run: TaskRun, t: Timing) {
    && run.key.Controller? && run.runId !in RunsWithExecutions(m)
    && run.updatedAtMs.Some? && Reached(t, run.updatedAtMs.value, HOOK_ONLY_STALE_VISIBILITY_MS)
  }

  function LastObserved(run: TaskRun): int
    requires run.key.Provisional?
  {
    if run.updatedAtMs.Some? then run.updatedAtMs.value else run.createdAtMs.UnwrapOr(run.key.startMs)
  }

  predicate GhostExpired(m: Model, run: TaskRun, t: Timing) {
    && EffectiveLifecycleEnd(m, run).None? && run.key.Provisional?
    && Reached(t, LastObserved(run), t.ghostVisibilityMs)
  }

  predicate PolicyEligible(m: Model, run: TaskRun, t: Timing) {
    run.dismissedAtMs.None? && !GhostExpired(m, run, t) && !HookOnlyStale(m, run, t)
  }

  predicate LifecycleExpired(m: Model, run: TaskRun, t: Timing) {
    var end := EffectiveLifecycleEnd(m, run);
    end.Some? && Reached(t, end.value, DEFAULT_TERMINAL_VISIBILITY_MS)
  }

  predicate DefaultVisible(m: Model, run: TaskRun, t: Timing) {
    PolicyEligible(m, run, t) && !LifecycleExpired(m, run, t)
  }

  predicate ExpiredAncestor(m: Model, run: TaskRun, t: Timing) {
    PolicyEligible(m, run, t) && LifecycleExpired(m, run, t)
  }

  // ----- the closure over execution ancestors

  /** Known runs visible on their own. */
  predicate Shown(m: Model, t: Timing, r: RunId) {
    r in m.taskRuns && DefaultVisible(m, m.taskRuns[r], t)
  }

  /** Known runs shown only for the sake of a visible descendant. */
  predicate Bridging(m: Model, t: Timing, r: RunId) {
    r in m.taskRuns && ExpiredAncestor(m, m.taskRuns[r], t)
  }

  /** A chain of execution edges from `r` down to a run visible on its own, bridged all the way before it. */
  ghost predicate ShownThrough(m: Model, t: Timing, r: RunId, w: seq<RunId>) {
    && |w| > 0 && w[0] == r && Shown(m, t, w[|w| - 1])
    && forall i :: 0 <= i < |w| - 1 ==> Bridging(m, t, w[i]) && Edge(w[i], w[i + 1]) in m.executionEdges
  }

  ghost predicate HasVisibleDescent(m: Model, t: Timing, r: RunId) {
    exists w :: ShownThrough(m, t, r, w)
  }

  function NewAncestors(m: Model, t: Timing, visible: set<RunId>): set<RunId> {
    set e | e in m.executionEdges && e.dst in visible && e.src !in visible && Bridging(m, t, e.src) :: e.src
  }

  lemma ShownDescends(m: Model, t: Timing, r: RunId)
    requires Shown(m, t, r)
    ensures HasVisibleDescent(m, t, r)
  {
    assert ShownThrough(m, t, r, [r]);
  }

  lemma AncestorsDescend(m: Model, t: Timing, visible: set<RunId>)
    requires forall r :: r in visible ==> HasVisibleDescent(m, t, r)
    ensures forall r :: r in NewAncestors(m, t, visible) ==> HasVisibleDescent(m, t, r)
  {
    forall r | r in NewAncestors(m, t, visible) ensures HasVisibleDescent(m, t, r) {
      var e :| e in m.executionEdges && e.dst in visible && e.src == r && Bridging(m, t, e.src);
      var w :| ShownThrough(m, t, e.dst, w);
      var longer := [r] + w;
      forall i | 0 <= i < |longer| - 1 ensures Bridging(m, t, longer[i])
          && Edge(longer[i], longer[i + 1]) in m.executionEdges {
        if i > 0 { assert Bridging(m, t, w[i - 1]) && Edge(w[i - 1], w[i - 1 + 1]) in m.executionEdges; }
      }
      assert ShownThrough(m, t, r, longer);
    }
  }

  /** A set with every shown run and without new ancestors holds every run with a visible descent. */
  lemma {:induction false} ClosedHoldsDescent(m: Model, t: Timing, closed: set<RunId>, r: RunId, w: seq<RunId>)
    requires forall x :: Shown(m, t, x) ==> x in closed
    requires NewAncestors(m, t, closed) == {} && ShownThrough(m, t, r, w)
    ensures r in closed
    decreases |w|
  {
    if |w| > 1 {
      var rest, e := w[1..], Edge(w[0], w[1]);
      assert Bridging(m, t, w[0]) && e in m.executionEdges;
      forall i | 0 <= i < |rest| - 1 ensures Bridging(m, t, rest[i]) && Edge(rest[i], rest[i + 1]) in m.executionEdges {
        assert Bridging(m, t, w[i + 1]) && Edge(w[i + 1], w[i + 1 + 1]) in m.executionEdges;
      }
      ClosedHoldsDescent(m, t, closed, w[1], rest);
      assert e.src !in closed ==> e.src in NewAncestors(m, t, closed);
    }
  }

  /** The visible set is exactly the runs with a visible descent, on any set of edges, even a cyclic one. */
  method DefaultVisibleTaskRunIds(m: Model, t: Timing) returns (visible: set<RunId>)
    ensures forall r :: r in visible <==> HasVisibleDescent(m, t, r)
  {
    visible := set r | r in m.taskRuns && DefaultVisible(m, m.taskRuns[r], t);
    forall r | r in visible ensures HasVisibleDescent(m, t, r) { ShownDescends(m, t, r); }
    while true
      invariant forall x :: Shown(m, t, x) ==> x in visible
      invariant visible <= m.taskRuns.Keys
      invariant forall r :: r in visible ==> HasVisibleDescent(m, t, r)
      decreases m.taskRuns.Keys - visible
    {
      var ancestors := NewAncestors(m, t, visible);
      if ancestors == {} { break; }
      AncestorsDescend(m, t, visible);
      assert exists r :: r in ancestors;
      visible := visible + ancestors;
    }
    forall r | HasVisibleDescent(m, t, r) ensures r in visible {
      var w :| ShownThrough(m, t, r, w);
      ClosedHoldsDescent(m, t, visible, r, w);
    }
  }

  /** Nothing smaller would do: every set with the shown runs and closed under bridging contains the visible set. */
  lemma VisibleIsLeast(m: Model, t: Timing, closed: set<RunId>)
    requires forall x :: Shown(m, t, x) ==> x in closed
    requires forall e :: e in m.executionEdges && e.dst in closed && Bridging(m, t, e.src) ==> e.src in closed
    ensures forall r :: HasVisibleDescent(m, t, r) ==> r in closed
  {
    forall r | HasVisibleDescent(m, t, r) ensures r in closed {
      var w :| ShownThrough(m, t, r, w);
      ClosedHoldsDescent(m, t, closed, r, w);
    }
  }

  /** Every visible run is known and eligible; an expired one has a visible child. */
  lemma VisibleRunsAreEligible(m: Model, t: Timing, r: RunId)
    requires HasVisibleDescent(m, t, r)
    ensures r in m.taskRuns && PolicyEligible(m, m.taskRuns[r], t)
    ensures LifecycleExpired(m, m.taskRuns[r], t)
            ==> exists c :: Edge(r, c) in m.executionEdges && HasVisibleDescent(m, t, c)
  {
    var w :| ShownThrough(m, t, r, w);
    if |w| > 1 {
      assert Bridging(m, t, w[0]) && Edge(w[0], w[1]) in m.executionEdges;
      var rest := w[1..];
      forall i | 0 <= i < |rest| - 1 ensures Bridging(m, t, rest[i]) && Edge(rest[i], rest[i + 1]) in m.executionEdges {
        assert Bridging(m, t, w[i + 1]) && Edge(w[i + 1], w[i + 1 + 1]) in m.executionEdges;
      }
      assert ShownThrough(m, t, w[1], rest);
    }
  }

  // ----- as time goes by

  /** The same windows at a later time. */
  predicate LaterThan(t: Timing, u: Timing) {
    t.nowMs <= u.nowMs && t.ghostVisibilityMs == u.ghostVisibilityMs
  }

  lemma EligibleBefore(m: Model, run: TaskRun, t: Timing, u: Timing)
    requires LaterThan(t, u) && PolicyEligible(m, run, u)
    ensures PolicyEligible(m, run, t)
    ensures LifecycleExpired(m, run, t) ==> LifecycleExpired(m, run, u)
  {
  }

  /** The run ended: by its finish time, or, lacking one, by the end of its native session. */
  ghost predicate EndedAt(m: Model, run: TaskRun, end: int) {
    if run.finishedAtMs.Some? then run.finishedAtMs == Some(end)
    else run.runId in m.history && m.history[run.runId].nativeSessionEnd.Some?
         && m.history[run.runId].nativeSessionEnd.value.atMs == end
  }

  /** The last trace of an unidentified run: its update, else its creation, else its start. */
  ghost predicate LastSeenAt(run: TaskRun, at: int) {
    && run.key.Provisional?
    && if run.updatedAtMs.Some? then run.updatedAtMs == Some(at)
       else if run.createdAtMs.Some? then run.createdAtMs == Some(at)
       else run.key.startMs == at
  }

  /** No time of the run is so late that adding a window leaves the 64-bit range. */
  ghost predicate InTime(run: TaskRun, t: Timing) {
    && (forall at :: LastSeenAt(run, at) ==> I64_MIN <= at + t.ghostVisibilityMs <= I64_MAX)
    && (run.updatedAtMs.Some? ==> I64_MIN <= run.updatedAtMs.value <= I64_MAX - 86_400_000)
  }

  predicate WithoutExecutions(m: Model, run: RunId) {
    forall i :: i in m.executions ==> m.executions[i].taskRunId != run
  }

  /**
   * A known run is visible on its own exactly when it is not dismissed, ended less than an hour ago if at all, was seen
   * within the window if it is unidentified and has not ended, and was updated within a day if it is a Controller's
   * without executions.
   */
  ghost predicate VisibleByRows(m: Model, run: TaskRun, t: Timing) {
    && run.dismissedAtMs == None
    && (forall end :: EndedAt(m, run, end) ==> t.nowMs < end + 3_600_000)
    && ((exists end :: EndedAt(m, run, end))
        || forall at :: LastSeenAt(run, at) ==> t.nowMs < at + t.ghostVisibilityMs)
    && (!(run.key.Controller? && WithoutExecutions(m, run.runId) && run.updatedAtMs.Some?)
        || t.nowMs < run.updatedAtMs.value + 86_400_000)
  }

  lemma EndIsEffective(m: Model, run: TaskRun, end: int)
    ensures EndedAt(m, run, end) <==> EffectiveLifecycleEnd(m, run) == Some(end)
  {
  }

  lemma LastSeenIsObserved(run: TaskRun, at: int)
    ensures LastSeenAt(run, at) <==> run.key.Provisional? && LastObserved(run) == at
  {
  }

  lemma NoExecutions(m: Model, run: RunId)
    ensures run !in RunsWithExecutions(m) <==> WithoutExecutions(m, run)
  {
  }

  lemma VisibleExactly(m: Model, run: TaskRun, t: Timing)
    requires InTime(run, t) && forall end :: EndedAt(m, run, end) ==> I64_MIN <= end <= I64_MAX - 3_600_000
    ensures DefaultVisible(m, run, t) <==> VisibleByRows(m, run, t)
  {
    forall end ensures EndedAt(m, run, end) <==> EffectiveLifecycleEnd(m, run) == Some(end) {
      EndIsEffective(m, run, end);
    }
    forall at ensures LastSeenAt(run, at) <==> run.key.Provisional? && LastObserved(run) == at {
      LastSeenIsObserved(run, at);
    }
    NoExecutions(m, run.runId);
    if run.key.Provisional? { assert LastSeenAt(run, LastObserved(run)); }
    if EffectiveLifecycleEnd(m, run).Some? { assert EndedAt(m, run, EffectiveLifecycleEnd(m, run).value); }
  }

  lemma BridgeDescends(m: Model, t: Timing, r: RunId, c: RunId)
    requires Bridging(m, t, r) && Edge(r, c) in m.executionEdges && HasVisibleDescent(m, t, c)
    ensures HasVisibleDescent(m, t, r)
  {
    var w :| ShownThrough(m, t, c, w);
    var longer := [r] + w;
    forall i | 0 <= i < |longer| - 1 ensures Bridging(m, t, longer[i])
        && Edge(longer[i], longer[i + 1]) in m.executionEdges {
      if i > 0 { assert Bridging(m, t, w[i - 1]) && Edge(w[i - 1], w[i - 1 + 1]) in m.executionEdges; }
    }
    assert ShownThrough(m, t, r, longer);
  }

  /** While the model stays as it is, time only hides runs: whatever is visible later is visible now. */
  lemma {:induction false} VisibilityOnlyShrinks(m: Model, t: Timing, u: Timing, r: RunId, w: seq<RunId>)
    requires LaterThan(t, u) && ShownThrough(m, u, r, w)
    ensures HasVisibleDescent(m, t, r)
    decreases |w|
  {
    EligibleBefore(m, m.taskRuns[r], t, u);
    if |w| == 1 || !LifecycleExpired(m, m.taskRuns[r], t) {
      ShownDescends(m, t, r);
    } else {
      assert Bridging(m, u, w[0]) && Edge(w[0], w[1]) in m.executionEdges;
      var rest := w[1..];
      forall i | 0 <= i < |rest| - 1 ensures Bridging(m, u, rest[i]) && Edge(rest[i], rest[i + 1]) in m.executionEdges {
        assert Bridging(m, u, w[i + 1]) && Edge(w[i + 1], w[i + 1 + 1]) in m.executionEdges;
      }
      VisibilityOnlyShrinks(m, t, u, w[1], rest);
      BridgeDescends(m, t, r, w[1]);
    }
  }
}
