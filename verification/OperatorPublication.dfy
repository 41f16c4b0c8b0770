/** What a publication releases and shows, and how completed writes mark events. */
module OperatorPublication {
  import opened Types
  import opened Entities
  import opened ActivityOrder
  import opened Operator
  import opened OperatorProofs
  import opened OperatorLineage

  // ----- which runs stay blocked

  /** The finalization at `i` is the last one of the run. */
  ghost predicate LastFinalized(finalized: seq<FinalizedRun>, run: RunId, i: nat) {
    && i < |finalized| && finalized[i].runId == run
    && forall j :: i < j < |finalized| ==> finalized[j].runId != run
  }

  /** The run's last finalization is not ready, or it has none and the run was blocked before. */
  ghost predicate RemainsBlocked(blocked: set<RunId>, finalized: seq<FinalizedRun>, run: RunId) {
    if exists i: nat :: LastFinalized(finalized, run, i)
    then exists i: nat :: LastFinalized(finalized, run, i) && !finalized[i].historyReady
    else run in blocked
  }

  lemma LastFinalizedOneMore(finalized: seq<FinalizedRun>, run: RunId, i: nat)
    requires finalized != []
    ensures var n := |finalized| - 1;
            LastFinalized(finalized, run, i)
            <==> if finalized[n].runId == run then i == n else LastFinalized(finalized[..n], run, i)
  {
    var n := |finalized| - 1;
    assert forall j :: 0 <= j < n ==> finalized[..n][j] == finalized[j];
    if i < n && finalized[n].runId != run && LastFinalized(finalized[..n], run, i) {
      forall j | i < j < |finalized| ensures finalized[j].runId != run {
        if j < n { assert finalized[..n][j].runId != run; }
      }
    }
  }

  /** A run is blocked after the finalizations exactly when it remains blocked by its last one. */
  lemma {:induction false} BlockedByLast(blocked: set<RunId>, finalized: seq<FinalizedRun>, run: RunId)
    ensures run in StillBlocked(blocked, finalized) <==> RemainsBlocked(blocked, finalized, run)
    decreases |finalized|
  {
    if finalized == [] {
      assert forall i :: !LastFinalized(finalized, run, i);
    } else {
      var n := |finalized| - 1;
      BlockedByLast(blocked, finalized[..n], run);
      forall i: nat ensures LastFinalized(finalized, run, i)
        <==> if finalized[n].runId == run then i == n else LastFinalized(finalized[..n], run, i)
      {
        LastFinalizedOneMore(finalized, run, i);
      }
      if finalized[n].runId == run { assert LastFinalized(finalized, run, n); }
    }
  }

  /** All finalizations that the publications of a run bring, in order. */
  function Finalizations(steps: seq<Step>): seq<FinalizedRun> {
    if steps == [] then []
    else
      var step := steps[|steps| - 1];
      Finalizations(steps[..|steps| - 1]) + if step.Publish? then step.finalized else []
  }

  lemma {:induction false} BlockedInTwo(blocked: set<RunId>, a: seq<FinalizedRun>, b: seq<FinalizedRun>)
    ensures StillBlocked(blocked, a + b) == StillBlocked(StillBlocked(blocked, a), b)
  {
    if b == [] {
      assert a + b == a;
    } else {
      var n := |b| - 1;
      assert (a + b)[..|a + b| - 1] == a + b[..n];
      BlockedInTwo(blocked, a, b[..n]);
    }
  }

  lemma {:induction false} BlockedAfter(s: Projections, steps: seq<Step>)
    ensures SystemAfter(s, steps).blockedRuns == StillBlocked(s.blockedRuns, Finalizations(steps))
  {
    if steps != [] {
      var init, step := steps[..|steps| - 1], steps[|steps| - 1];
      BlockedAfter(s, init);
      if step.Publish? { BlockedInTwo(s.blockedRuns, Finalizations(init), step.finalized); }
      else { assert Finalizations(init) + [] == Finalizations(init); }
    }
  }

  /** Over whole runs a run is blocked exactly when its last finalization in any publication was not ready. */
  lemma BlockedOverRuns(s: Projections, steps: seq<Step>, run: RunId)
    ensures run in SystemAfter(s, steps).blockedRuns <==> RemainsBlocked(s.blockedRuns, Finalizations(steps), run)
  {
    BlockedAfter(s, steps);
    BlockedByLast(s.blockedRuns, Finalizations(steps), run);
  }

  // ----- what is shown

  /** A drain that is not completed still holds the event back. */
  ghost predicate HeldBack(s: Projections, completed: set<DrainId>, id: EventId) {
    exists d :: d in s.deferred && d !in completed && id in s.deferred[d]
  }

  /** The private version of the event belongs to a run that remains blocked. */
  ghost predicate OfBlockedRun(s: Projections, finalized: seq<FinalizedRun>, id: EventId) {
    exists x :: x in s.own.activity && x.eventId == id && x.taskRunId.Some?
                && RemainsBlocked(s.blockedRuns, finalized, x.taskRunId.value)
  }

  ghost predicate IsHidden(s: Projections, completed: set<DrainId>, finalized: seq<FinalizedRun>, id: EventId) {
    HeldBack(s, completed, id) || OfBlockedRun(s, finalized, id)
  }

  /** Private items that are not hidden, and the versions published before of those that are. */
  ghost predicate Competes(s: Projections, completed: set<DrainId>, finalized: seq<FinalizedRun>, x: ActivityItem) {
    if IsHidden(s, completed, finalized, x.eventId) then x in s.shown.activity else x in s.own.activity
  }

  lemma HiddenExactly(s: Projections, completed: set<DrainId>, finalized: seq<FinalizedRun>, id: EventId)
    ensures id in HiddenIds(s.own.activity, WithoutDrains(s.deferred, completed),
                            StillBlocked(s.blockedRuns, finalized))
            <==> IsHidden(s, completed, finalized, id)
  {
    var deferred, blocked := WithoutDrains(s.deferred, completed), StillBlocked(s.blockedRuns, finalized);
    forall run ensures run in blocked <==> RemainsBlocked(s.blockedRuns, finalized, run) {
      BlockedByLast(s.blockedRuns, finalized, run);
    }
    if HeldBack(s, completed, id) {
      var d :| d in s.deferred && d !in completed && id in s.deferred[d];
      assert d in deferred && id in deferred[d];
    }
    if d :| d in deferred && id in deferred[d] { assert d in s.deferred && d !in completed; }
    if OfBlockedRun(s, finalized, id) {
      var x :| x in s.own.activity && x.eventId == id && x.taskRunId.Some?
               && RemainsBlocked(s.blockedRuns, finalized, x.taskRunId.value);
      assert x.taskRunId.value in blocked;
    }
  }

  /**
   * A publication unblocks and blocks runs by their last finalizations, forgets the completed drains, and shows the top
   * of the private items that are not hidden and of the hidden ones as published before, with the finish times given.
   */
  lemma PublicationShows(s: Projections, completed: set<DrainId>, finalized: seq<FinalizedRun>,
                         runs: map<RunId, TaskRun>, all: set<ActivityItem>)
    requires DistinctIds(s.own.activity) && DistinctIds(s.shown.activity)
    requires forall x :: x in all <==> Competes(s, completed, finalized, x)
    ensures var after := Published(s, completed, finalized, runs);
            && IsTop(after.shown.activity, all, ACTIVITY_LIMIT)
            && after.own == s.own && after.shown.pending == {}
            && (forall run :: run in after.blockedRuns <==> RemainsBlocked(s.blockedRuns, finalized, run))
            && (forall d :: d in after.deferred <==> d in s.deferred && d !in completed)
            && (forall d :: d in after.deferred ==> after.deferred[d] == s.deferred[d])
            && (forall run, time :: (run in after.shown.terminalTimes && after.shown.terminalTimes[run] == time)
                                    <==> run in runs && runs[run].finishedAtMs == Some(time))
  {
    var hidden := HiddenIds(s.own.activity, WithoutDrains(s.deferred, completed),
                            StillBlocked(s.blockedRuns, finalized));
    forall id ensures id in hidden <==> IsHidden(s, completed, finalized, id) {
      HiddenExactly(s, completed, finalized, id);
    }
    forall run ensures run in StillBlocked(s.blockedRuns, finalized)
        <==> RemainsBlocked(s.blockedRuns, finalized, run) {
      BlockedByLast(s.blockedRuns, finalized, run);
    }
    AccumulatedIsTop(s.own.activity, s.shown.activity, hidden);
    assert all == (set x | x in s.own.activity && x.eventId !in hidden)
                  + (set x | x in s.shown.activity && x.eventId in hidden);
  }

  /** An event in no remaining drain, whose run's last finalization is ready, competes with its private version. */
  lemma FinalizedRunsAreShown(s: Projections, completed: set<DrainId>, finalized: seq<FinalizedRun>, x: ActivityItem,
                              run: RunId, i: nat)
    requires DistinctIds(s.own.activity) && x in s.own.activity && x.taskRunId == Some(run)
    requires LastFinalized(finalized, run, i) && finalized[i].historyReady && !HeldBack(s, completed, x.eventId)
    ensures Competes(s, completed, finalized, x)
  {
    forall j: nat | LastFinalized(finalized, run, j) ensures j == i {}
    forall y | y in s.own.activity && y.eventId == x.eventId ensures y == x {}
  }

  // ----- what a drain holds back

  /**
   * After a historical submission the drain holds what it held and what was touched, as far as the buffer still does.
   */
  lemma DrainHoldsBack(p: Projection, deferred: map<DrainId, set<EventId>>, drain: DrainId, batch: seq<PersistOp>,
                       d: DrainId, id: EventId)
    ensures var b := Submitted(p.activity, p.terminalTimes, batch);
            var after := DeferredAfter(deferred, drain, b);
            (d in after && id in after[d])
            <==> && ((d in deferred && id in deferred[d])
                     || (d == drain && IsTouched(Items(p.activity), batch, id)))
                 && (b.changed ==> exists x :: x in Settled(b) && x.eventId == id)
  {
    SubmittedCarries(p.activity, p.terminalTimes, batch);
  }

  // ----- what a completed write says

  /** The mark that the outcome of a write gives. */
  predicate Says(outcome: WriteOutcome, durability: Durability) {
    && (durability.Durable? <==> outcome.WroteDurable? || outcome.CommittedButDegraded?)
    && (durability.CurrentOnly? <==> outcome.NotCommitted? || outcome.Skipped?)
    && (durability.DurabilityUnknown? <==> outcome.OutcomeUnknown?)
  }

  /** Exactly the open events of the list are marked by the outcome; nothing else changes. */
  ghost predicate MarkedBy(before: seq<ActivityItem>, open: set<EventId>, outcome: WriteOutcome,
                           after: seq<ActivityItem>) {
    && |after| == |before|
    && forall i :: 0 <= i < |before| ==>
         && after[i] == before[i].(durability := after[i].durability)
         && if before[i].eventId in open then Says(outcome, after[i].durability) else after[i] == before[i]
  }

  /**
   * A completion marks the events its submission touched, live at once and for good, historical until it is durable.
   */
  lemma CompletionMarks(p: Projection, outcome: WriteOutcome)
    ensures MarkedBy(p.activity, p.pending, outcome, LiveCompleted(p, outcome).activity)
    ensures LiveCompleted(p, outcome).pending == {}
    ensures MarkedBy(p.activity, p.deferredPending, outcome, HistoricallyCompleted(p, outcome).activity)
    ensures HistoricallyCompleted(p, outcome).deferredPending
            == if Says(outcome, Durable) then {} else p.deferredPending
  {
  }

  /** Right after a submission, live or historical, exactly the touched events are open for its kind. */
  lemma SubmissionOpens(p: Projection, batch: seq<PersistOp>, id: EventId)
    ensures id in LiveSubmitted(p, batch).pending <==> IsTouched(Items(p.activity), batch, id)
    ensures id in HistoricallySubmitted(p, batch).deferredPending <==> IsTouched(Items(p.activity), batch, id)
    ensures LiveSubmitted(p, batch).deferredPending == p.deferredPending
    ensures HistoricallySubmitted(p, batch).pending == p.pending
  {
    SubmittedCarries(p.activity, p.terminalTimes, batch);
  }
}
