/** The bounded activity buffer against an unbounded history, and what publication may show. */
module OperatorProofs {
  import opened Types
  import opened Entities
  import opened ActivityOrder
  import opened Operator

  // ----- one submission to an unbounded history

  /** The last version written of every identity, and the identities one submission touches. */
  datatype Written = Written(items: set<ActivityItem>, touched: set<EventId>)

  function Replaced(items: set<ActivityItem>, v: ActivityItem): set<ActivityItem> {
    (set x | x in items && x.eventId != v.eventId) + {v}
  }

  function MapSet(f: ActivityItem -> ActivityItem, items: set<ActivityItem>): set<ActivityItem> {
    set x | x in items :: f(x)
  }

  predicate Records(op: PersistOp) { op.RecordEvent? && op.item.Some? }

  function WrittenOne(w: Written, op: PersistOp): Written {
    if Records(op) then Written(Replaced(w.items, op.item.value), w.touched + {op.item.value.eventId}) else w
  }

  function WrittenBy(w: Written, batch: seq<PersistOp>): Written {
    if batch == [] then w else WrittenOne(WrittenBy(w, batch[..|batch| - 1]), batch[|batch| - 1])
  }

  function RelinkedOne(w: Written, op: PersistOp): Written {
    if op.MergeTaskRuns? then
      Written(MapSet(Relabel(op.survivor, op.absorbed), w.items),
              w.touched + (set x | x in w.items && x.taskRunId == Some(op.absorbed) :: x.eventId))
    else w
  }

  function RelinkedBy(w: Written, batch: seq<PersistOp>): Written {
    if batch == [] then w else RelinkedOne(RelinkedBy(w, batch[..|batch| - 1]), batch[|batch| - 1])
  }

  function HistorySubmitted(items: set<ActivityItem>, batch: seq<PersistOp>): Written {
    RelinkedBy(WrittenBy(Written(items, {}), batch), batch)
  }

  /** The version recorded does not sort later than the buffered one it replaces, if one is buffered. */
  ghost predicate NeverLater(items: set<ActivityItem>, v: ActivityItem) {
    forall y :: y in items && y.eventId == v.eventId ==> !Before(y, v)
  }

  ghost predicate NeverLaterIn(b: Buffer, batch: seq<PersistOp>) {
    batch == [] || (
      var init, op := batch[..|batch| - 1], batch[|batch| - 1];
      NeverLaterIn(b, init) && (Records(op) ==> NeverLater(Items(Recorded(b, init).activity), op.item.value)))
  }

  // ----- the buffer covers the history while a submission is being applied

  ghost predicate PendingAgree(s: seq<ActivityItem>, a: set<EventId>, b: set<EventId>) {
    forall x :: x in s ==> (x.eventId in a <==> x.eventId in b)
  }

  ghost predicate Agrees(s: seq<ActivityItem>, a: set<EventId>, b: set<EventId>) {
    a <= b && PendingAgree(s, a, b)
  }

  ghost predicate Tracks(b: Buffer, w: Written) {
    && DistinctIds(b.activity) && UniqueIds(w.items)
    && Covers(Items(b.activity), w.items, ACTIVITY_LIMIT)
    && Agrees(b.activity, b.pending, w.touched)
  }

  lemma WeakThenStrict(a: ActivityItem, b: ActivityItem, c: ActivityItem)
    requires !Before(b, a) && Before(b, c)
    ensures Before(a, c)
  {
  }

  lemma ReplaceCovers(some: set<ActivityItem>, all: set<ActivityItem>, v: ActivityItem, limit: nat)
    requires Covers(some, all, limit) && UniqueIds(all) && NeverLater(some, v)
    ensures Covers(Replaced(some, v), Replaced(all, v), limit)
  {
    forall z | z in Replaced(all, v) && z !in Replaced(some, v) ensures |Earlier(Replaced(some, v), z)| >= limit {
      var before, after := Earlier(some, z), Earlier(Replaced(some, v), z);
      if y :| y in before && y.eventId == v.eventId {
        BeforeIsTotalOrder(v, y, z);
        WeakThenStrict(v, y, z);
        assert (before - {y}) + {v} <= after;
        assert v !in before - {y};
        SubsetCount((before - {y}) + {v}, after);
      } else {
        assert before <= after;
        SubsetCount(before, after);
      }
    }
  }

  lemma {:induction false} MapSetCount(f: ActivityItem -> ActivityItem, items: set<ActivityItem>)
    requires KeepsOrder(f) && UniqueIds(items)
    ensures |MapSet(f, items)| == |items|
    decreases |items|
  {
    if items != {} {
      var x :| x in items;
      MapSetCount(f, items - {x});
      assert MapSet(f, items) == MapSet(f, items - {x}) + {f(x)};
      forall y | y in items - {x} ensures f(y) != f(x) {
        assert f(y).eventId == y.eventId && f(x).eventId == x.eventId;
      }
      assert f(x) !in MapSet(f, items - {x});
    }
  }

  lemma MapCovers(f: ActivityItem -> ActivityItem, some: set<ActivityItem>, all: set<ActivityItem>, limit: nat)
    requires KeepsOrder(f) && UniqueIds(all) && Covers(some, all, limit)
    ensures UniqueIds(MapSet(f, all)) && Covers(MapSet(f, some), MapSet(f, all), limit)
  {
    forall z' | z' in MapSet(f, all) && z' !in MapSet(f, some) ensures |Earlier(MapSet(f, some), z')| >= limit {
      var z :| z in all && f(z) == z';
      var before := Earlier(some, z);
      forall y' | y' in MapSet(f, before) ensures y' in Earlier(MapSet(f, some), z') {
        var y :| y in before && f(y) == y';
        assert Before(y, z);
      }
      MapSetCount(f, before);
      SubsetCount(MapSet(f, before), Earlier(MapSet(f, some), z'));
    }
  }

  lemma MapItemsItems(f: ActivityItem -> ActivityItem, s: seq<ActivityItem>)
    ensures Items(MapItems(f, s)) == MapSet(f, Items(s))
  {
    forall y | y in MapSet(f, Items(s)) ensures y in Items(MapItems(f, s)) {
      var x :| x in s && f(x) == y;
      var i :| 0 <= i < |s| && s[i] == x;
      assert MapItems(f, s)[i] == y;
    }
  }

  lemma RecordTracks(b: Buffer, w: Written, op: PersistOp)
    requires Tracks(b, w) && Records(op) && NeverLater(Items(b.activity), op.item.value)
    ensures Tracks(RecordedOne(b, op), WrittenOne(w, op))
  {
    var v := op.item.value;
    var rest := WithoutId(b.activity, v.eventId);
    WithoutIdItems(b.activity, v.eventId);
    forall j | 0 <= j < |rest| ensures rest[j].eventId != v.eventId { assert rest[j] in rest; }
    assert Items(rest + [v]) == Replaced(Items(b.activity), v);
    ReplaceCovers(Items(b.activity), w.items, v, ACTIVITY_LIMIT);
  }

  lemma {:induction false} RecordedTracks(b: Buffer, w: Written, batch: seq<PersistOp>)
    requires Tracks(b, w) && NeverLaterIn(b, batch)
    ensures Tracks(Recorded(b, batch), WrittenBy(w, batch))
  {
    if batch != [] {
      var init, op := batch[..|batch| - 1], batch[|batch| - 1];
      RecordedTracks(b, w, init);
      if Records(op) {
        RecordTracks(Recorded(b, init), WrittenBy(w, init), op);
      }
    }
  }

  lemma MentionsAgree(s: seq<ActivityItem>, all: set<ActivityItem>, run: RunId)
    requires Items(s) <= all && UniqueIds(all)
    ensures Agrees(s, MentioningIds(s, run), set x | x in all && x.taskRunId == Some(run) :: x.eventId)
  {
    forall x | x in s ensures x in all {
      assert x in Items(s);
    }
  }

  lemma LineTracks(b: Buffer, w: Written, op: PersistOp)
    requires Tracks(b, w) && op.MergeTaskRuns?
    ensures Tracks(LinedOne(b, op), RelinkedOne(w, op))
  {
    var f := Relabel(op.survivor, op.absorbed);
    RelabelKeepsOrder(op.survivor, op.absorbed);
    MapCovers(f, Items(b.activity), w.items, ACTIVITY_LIMIT);
    MapItemsItems(f, b.activity);
    MapKeepsOrder(f, b.activity);
    MentionsAgree(b.activity, w.items, op.absorbed);
    forall y | y in MapItems(f, b.activity)
      ensures exists x :: x in b.activity && x.eventId == y.eventId
    {
      var i :| 0 <= i < |b.activity| && MapItems(f, b.activity)[i] == y;
      assert b.activity[i] in b.activity;
    }
  }

  lemma {:induction false} LinedTracks(b: Buffer, w: Written, batch: seq<PersistOp>)
    requires Tracks(b, w)
    ensures Tracks(Lined(b, batch), RelinkedBy(w, batch))
  {
    if batch != [] {
      var init, op := batch[..|batch| - 1], batch[|batch| - 1];
      LinedTracks(b, w, init);
      if op.MergeTaskRuns? {
        LineTracks(Lined(b, init), RelinkedBy(w, init), op);
      }
    }
  }

  // ----- refinement

  /** Both pending sets of the unbounded history beside its items. */
  datatype History = History(items: set<ActivityItem>, pending: set<EventId>, deferredPending: set<EventId>)

  /** What may happen to the projections: live and historical submissions, their completions, and publication. */
  datatype Step =
    | Submit(batch: seq<PersistOp>)
    | Complete(outcome: WriteOutcome)
    | SubmitHistorical(drain: DrainId, batch: seq<PersistOp>)
    | CompleteHistorical(outcome: WriteOutcome)
    | Publish(completed: set<DrainId>, finalized: seq<FinalizedRun>, runs: map<RunId, TaskRun>)

  /** One buffer's share of a step; publication leaves the private buffer alone. */
  function Next(p: Projection, step: Step): Projection {
    match step
    case Submit(batch) => LiveSubmitted(p, batch)
    case Complete(outcome) => LiveCompleted(p, outcome)
    case SubmitHistorical(_, batch) => HistoricallySubmitted(p, batch)
    case CompleteHistorical(outcome) => HistoricallyCompleted(p, outcome)
    case Publish(_, _, _) => p
  }

  function After(p: Projection, steps: seq<Step>): Projection {
    if steps == [] then p else Next(After(p, steps[..|steps| - 1]), steps[|steps| - 1])
  }

  lemma AfterOneMore(p: Projection, steps: seq<Step>, last: Step)
    ensures After(p, steps + [last]) == Next(After(p, steps), last)
  {
    assert (steps + [last])[..|steps|] == steps;
  }

  function HistoryNext(h: History, step: Step): History {
    match step
    case Submit(batch) =>
      var w := HistorySubmitted(h.items, batch);
      History(w.items, w.touched, h.deferredPending)
    case Complete(outcome) => h.(items := MapSet(Reclassify(h.pending, DurabilityOf(outcome)), h.items), pending := {})
    case SubmitHistorical(_, batch) =>
      var w := HistorySubmitted(h.items, batch);
      History(w.items, h.pending, w.touched)
    case CompleteHistorical(outcome) =>
      h.(items := MapSet(Reclassify(h.deferredPending, DurabilityOf(outcome)), h.items),
         deferredPending := if Committed(outcome) then {} else h.deferredPending)
    case Publish(_, _, _) => h
  }

  function HistoryAfter(h: History, steps: seq<Step>): History {
    if steps == [] then h else HistoryNext(HistoryAfter(h, steps[..|steps| - 1]), steps[|steps| - 1])
  }

  lemma HistoryAfterOneMore(h: History, steps: seq<Step>, last: Step)
    ensures HistoryAfter(h, steps + [last]) == HistoryNext(HistoryAfter(h, steps), last)
  {
    assert (steps + [last])[..|steps|] == steps;
  }

  const NOTHING := History({}, {}, {})

  function Fresh(times: map<RunId, int>): Projection { Projection([], times, {}, {}) }

  /** The identities a batch records. */
  function RecordedIds(batch: seq<PersistOp>): set<EventId> {
    if batch == [] then {}
    else
      var op := batch[|batch| - 1];
      RecordedIds(batch[..|batch| - 1]) + if Records(op) then {op.item.value.eventId} else {}
  }

  /** No record of the step sorts later than the buffered version it replaces. */
  ghost predicate Orderly(p: Projection, step: Step) {
    step.Submit? || step.SubmitHistorical? ==> NeverLaterIn(Buffer(p.activity, p.terminalTimes, false, {}), step.batch)
  }

  ghost predicate OrderlyThroughout(p: Projection, steps: seq<Step>) {
    steps == [] || (
      var init, step := steps[..|steps| - 1], steps[|steps| - 1];
      OrderlyThroughout(p, init) && Orderly(After(p, init), step))
  }

  /**
   * The batch brings back an event that the buffer does not hold, which a submission of the other kind has open in the
   * history (`b`) but not in the buffer (`a`), and the buffer keeps it.
   */
  ghost predicate Revives(p: Projection, batch: seq<PersistOp>, a: set<EventId>, b: set<EventId>) {
    exists id :: id in RecordedIds(batch) && id !in Ids(p.activity) && id in b && id !in a
                 && id in Ids(Settled(Submitted(p.activity, p.terminalTimes, batch)))
  }

  /** The step revives nothing that the other kind of submission has open. */
  ghost predicate KeepsMarks(p: Projection, h: History, step: Step) {
    match step
    case Submit(batch) => !Revives(p, batch, p.deferredPending, h.deferredPending)
    case SubmitHistorical(_, batch) => !Revives(p, batch, p.pending, h.pending)
    case _ => true
  }

  ghost predicate KeepsMarksThroughout(p: Projection, h: History, steps: seq<Step>) {
    steps == [] || (
      var init, step := steps[..|steps| - 1], steps[|steps| - 1];
      KeepsMarksThroughout(p, h, init) && KeepsMarks(After(p, init), HistoryAfter(h, init), step))
  }

  /** The buffer is the first ten thousand items of the history, and both have the same of them open. */
  ghost predicate Refines(p: Projection, h: History) {
    && UniqueIds(h.items) && IsTop(p.activity, h.items, ACTIVITY_LIMIT)
    && Agrees(p.activity, p.pending, h.pending) && Agrees(p.activity, p.deferredPending, h.deferredPending)
  }

  lemma SortedIsItsOwnTop(s: seq<ActivityItem>, limit: nat)
    requires Sorted(s) && |s| <= limit
    ensures IsTop(s, Items(s), limit)
  {
  }

  lemma MapIds(f: ActivityItem -> ActivityItem, s: seq<ActivityItem>)
    requires KeepsOrder(f)
    ensures Ids(MapItems(f, s)) <= Ids(s)
  {
    forall y | y in MapItems(f, s) ensures y.eventId in Ids(s) {
      var i :| 0 <= i < |s| && MapItems(f, s)[i] == y;
      assert s[i] in s;
    }
  }

  lemma {:induction false} RecordedHolds(b: Buffer, batch: seq<PersistOp>)
    ensures Ids(Recorded(b, batch).activity) <= Ids(b.activity) + RecordedIds(batch)
  {
    if batch != [] {
      var init, op := batch[..|batch| - 1], batch[|batch| - 1];
      RecordedHolds(b, init);
      if Records(op) {
        var before, v := Recorded(b, init).activity, op.item.value;
        WithoutIdItems(before, v.eventId);
        forall x | x in WithoutId(before, v.eventId) + [v] ensures x == v || x.eventId in Ids(before) {
          assert x in WithoutId(before, v.eventId) ==> x in before;
        }
      }
    }
  }

  lemma {:induction false} LinedHolds(b: Buffer, batch: seq<PersistOp>)
    ensures Ids(Lined(b, batch).activity) <= Ids(b.activity)
  {
    if batch != [] {
      var init, op := batch[..|batch| - 1], batch[|batch| - 1];
      LinedHolds(b, init);
      if op.MergeTaskRuns? {
        RelabelKeepsOrder(op.survivor, op.absorbed);
        MapIds(Relabel(op.survivor, op.absorbed), Lined(b, init).activity);
      }
    }
  }

  /** After a submission the buffer holds only what it held or what was recorded. */
  lemma SettledHolds(p: Projection, batch: seq<PersistOp>)
    ensures var b := Submitted(p.activity, p.terminalTimes, batch);
            forall x :: x in Settled(b)
                ==> x in b.activity && (x.eventId in Ids(p.activity) || x.eventId in RecordedIds(batch))
  {
    var start := Buffer(p.activity, p.terminalTimes, false, {});
    var b := Submitted(p.activity, p.terminalTimes, batch);
    RecordedHolds(start, batch);
    LinedHolds(Recorded(start, batch), batch);
    forall x | x in Settled(b) ensures x in b.activity {
      if b.changed { NormalizedHolds(b.activity, x); }
    }
    assert forall x :: x in b.activity ==> x.eventId in Ids(b.activity);
  }

  lemma SubmissionTracks(p: Projection, items: set<ActivityItem>, batch: seq<PersistOp>)
    requires UniqueIds(items) && IsTop(p.activity, items, ACTIVITY_LIMIT)
    requires NeverLaterIn(Buffer(p.activity, p.terminalTimes, false, {}), batch)
    ensures Tracks(Submitted(p.activity, p.terminalTimes, batch), HistorySubmitted(items, batch))
  {
    var start, began := Buffer(p.activity, p.terminalTimes, false, {}), Written(items, {});
    TopCovers(p.activity, items, ACTIVITY_LIMIT);
    SortedIsDistinct(p.activity, items);
    RecordedTracks(start, began, batch);
    LinedTracks(Recorded(start, batch), WrittenBy(began, batch), batch);
  }

  lemma SettledTops(b: Buffer, w: Written)
    requires Tracks(b, w) && (!b.changed ==> Sorted(b.activity) && |b.activity| <= ACTIVITY_LIMIT)
    ensures IsTop(Settled(b), w.items, ACTIVITY_LIMIT)
  {
    if b.changed {
      NormalizedIsTop(b.activity);
    } else {
      SortedIsItsOwnTop(b.activity, ACTIVITY_LIMIT);
    }
    CoveredTop(Settled(b), Items(b.activity), w.items, ACTIVITY_LIMIT);
  }

  /** One submission keeps the buffer the top of the history, and both mark the same buffered items as touched. */
  lemma SubmissionTops(p: Projection, items: set<ActivityItem>, batch: seq<PersistOp>)
    requires UniqueIds(items) && IsTop(p.activity, items, ACTIVITY_LIMIT)
    requires NeverLaterIn(Buffer(p.activity, p.terminalTimes, false, {}), batch)
    ensures var b, w := Submitted(p.activity, p.terminalTimes, batch), HistorySubmitted(items, batch);
            && UniqueIds(w.items) && IsTop(Settled(b), w.items, ACTIVITY_LIMIT)
               && Agrees(Settled(b), b.pending, w.touched)
  {
    SubmissionTracks(p, items, batch);
    ChangedIsSound(p.activity, p.terminalTimes, batch);
    SettledTops(Submitted(p.activity, p.terminalTimes, batch), HistorySubmitted(items, batch));
    SettledHolds(p, batch);
  }

  /**
   * The identities left open by a submission of the other kind agree on the new buffer exactly when none is revived.
   */
  lemma OpenAgreeExactly(p: Projection, batch: seq<PersistOp>, a: set<EventId>, b: set<EventId>)
    requires Agrees(p.activity, a, b)
    ensures Agrees(Settled(Submitted(p.activity, p.terminalTimes, batch)), a, b) <==> !Revives(p, batch, a, b)
  {
    var after := Settled(Submitted(p.activity, p.terminalTimes, batch));
    SettledHolds(p, batch);
    if Revives(p, batch, a, b) {
      var id :| id in RecordedIds(batch) && id !in Ids(p.activity) && id in b && id !in a && id in Ids(after);
      var x :| x in after && x.eventId == id;
    } else {
      forall x | x in after ensures x.eventId in a <==> x.eventId in b {
        assert x.eventId in Ids(after);
        if x.eventId in Ids(p.activity) {
          var y :| y in p.activity && y.eventId == x.eventId;
        }
      }
    }
  }

  lemma MapTop(f: ActivityItem -> ActivityItem, top: seq<ActivityItem>, all: set<ActivityItem>, limit: nat)
    requires KeepsOrder(f) && UniqueIds(all) && IsTop(top, all, limit)
    ensures UniqueIds(MapSet(f, all)) && IsTop(MapItems(f, top), MapSet(f, all), limit)
  {
    TopCovers(top, all, limit);
    MapCovers(f, Items(top), all, limit);
    MapKeepsOrder(f, top);
    MapItemsItems(f, top);
    SortedIsItsOwnTop(MapItems(f, top), limit);
    CoveredTop(MapItems(f, top), MapSet(f, Items(top)), MapSet(f, all), limit);
  }

  /** On the buffered items, marking by either set of identities is the same. */
  lemma MarkedAlike(top: seq<ActivityItem>, a: set<EventId>, b: set<EventId>, durability: Durability)
    requires PendingAgree(top, a, b)
    ensures MapItems(Reclassify(a, durability), top) == MapItems(Reclassify(b, durability), top)
  {
    forall i | 0 <= i < |top| ensures Reclassify(a, durability)(top[i]) == Reclassify(b, durability)(top[i]) {
      assert top[i] in top;
    }
  }

  lemma MapAgrees(f: ActivityItem -> ActivityItem, s: seq<ActivityItem>, a: set<EventId>, b: set<EventId>)
    requires KeepsOrder(f) && Agrees(s, a, b)
    ensures Agrees(MapItems(f, s), a, b)
  {
    forall y | y in MapItems(f, s) ensures y.eventId in a <==> y.eventId in b {
      var i :| 0 <= i < |s| && MapItems(f, s)[i] == y;
      assert s[i] in s;
    }
  }

  /** Reclassifying buffer and history by sets that agree keeps the buffer the top, and every agreement. */
  lemma ReclassifyRefines(p: Projection, h: History, a: set<EventId>, b: set<EventId>, durability: Durability)
    requires Refines(p, h) && Agrees(p.activity, a, b)
    ensures var f := Reclassify(b, durability);
            && MapItems(Reclassify(a, durability), p.activity) == MapItems(f, p.activity)
            && Refines(p.(activity := MapItems(f, p.activity)), h.(items := MapSet(f, h.items)))
  {
    var f := Reclassify(b, durability);
    ReclassifyKeepsOrder(b, durability);
    MarkedAlike(p.activity, a, b, durability);
    MapTop(f, p.activity, h.items, ACTIVITY_LIMIT);
    MapAgrees(f, p.activity, p.pending, h.pending);
    MapAgrees(f, p.activity, p.deferredPending, h.deferredPending);
  }

  /**
   * An orderly step, live or historical, keeps buffer and history together, marks included, exactly when it revives
   * nothing that the other kind of submission has open.
   */
  lemma StepRefinesExactly(p: Projection, h: History, step: Step)
    requires Refines(p, h) && Orderly(p, step)
    ensures Refines(Next(p, step), HistoryNext(h, step)) <==> KeepsMarks(p, h, step)
  {
    match step
    case Submit(batch) =>
      SubmissionTops(p, h.items, batch);
      OpenAgreeExactly(p, batch, p.deferredPending, h.deferredPending);
    case SubmitHistorical(_, batch) =>
      SubmissionTops(p, h.items, batch);
      OpenAgreeExactly(p, batch, p.pending, h.pending);
    case Complete(outcome) => ReclassifyRefines(p, h, p.pending, h.pending, DurabilityOf(outcome));
    case CompleteHistorical(outcome) =>
      ReclassifyRefines(p, h, p.deferredPending, h.deferredPending, DurabilityOf(outcome));
    case Publish(_, _, _) =>
  }

  /** Buffer and history are together after every step of the run. */
  ghost predicate RefinesThroughout(p: Projection, h: History, steps: seq<Step>) {
    && (steps != [] ==> RefinesThroughout(p, h, steps[..|steps| - 1]))
    && Refines(After(p, steps), HistoryAfter(h, steps))
  }

  lemma RefinesAtLast(p: Projection, h: History, steps: seq<Step>)
    requires RefinesThroughout(p, h, steps)
    ensures Refines(After(p, steps), HistoryAfter(h, steps))
  {
  }

  /**
   * Over any orderly run, marks included, buffer and history stay together exactly when no step revives an open event.
   */
  lemma {:induction false} RunRefinesExactly(p: Projection, h: History, steps: seq<Step>)
    requires Refines(p, h) && OrderlyThroughout(p, steps)
    ensures RefinesThroughout(p, h, steps) <==> KeepsMarksThroughout(p, h, steps)
  {
    if steps != [] {
      var init, step := steps[..|steps| - 1], steps[|steps| - 1];
      RunRefinesExactly(p, h, init);
      if RefinesThroughout(p, h, init) {
        RefinesAtLast(p, h, init);
        StepRefinesExactly(After(p, init), HistoryAfter(h, init), step);
      }
    }
  }

  // ----- both buffers over whole runs

  function SystemNext(s: Projections, step: Step): Projections {
    match step
    case Submit(batch) => s.(own := LiveSubmitted(s.own, batch), shown := LiveSubmitted(s.shown, batch))
    case Complete(outcome) => s.(own := LiveCompleted(s.own, outcome), shown := LiveCompleted(s.shown, outcome))
    case SubmitHistorical(drain, batch) =>
      s.(own := HistoricallySubmitted(s.own, batch),
         deferred := DeferredAfter(s.deferred, drain, Submitted(s.own.activity, s.own.terminalTimes, batch)))
    case CompleteHistorical(outcome) => s.(own := HistoricallyCompleted(s.own, outcome))
    case Publish(completed, finalized, runs) => Published(s, completed, finalized, runs)
  }

  function SystemAfter(s: Projections, steps: seq<Step>): Projections {
    if steps == [] then s else SystemNext(SystemAfter(s, steps[..|steps| - 1]), steps[|steps| - 1])
  }

  predicate IsLive(step: Step) { step.Submit? || step.Complete? }

  /** The live steps of a run, in order. */
  function LiveOnly(steps: seq<Step>): seq<Step> {
    if steps == [] then []
    else LiveOnly(steps[..|steps| - 1]) + if IsLive(steps[|steps| - 1]) then [steps[|steps| - 1]] else []
  }

  /** The private buffer follows every step; publication never changes it. */
  lemma {:induction false} OwnFollowsAll(s: Projections, steps: seq<Step>)
    ensures SystemAfter(s, steps).own == After(s.own, steps)
  {
    if steps != [] { OwnFollowsAll(s, steps[..|steps| - 1]); }
  }

  /** Between publications the published state is what the live steps alone make of it. */
  lemma {:induction false} ShownFollowsLive(s: Projections, steps: seq<Step>)
    requires forall step :: step in steps ==> !step.Publish?
    ensures SystemAfter(s, steps).shown == After(s.shown, LiveOnly(steps))
  {
    if steps != [] {
      var init, step := steps[..|steps| - 1], steps[|steps| - 1];
      ShownFollowsLive(s, init);
      assert step in steps;
      if IsLive(step) {
        assert LiveOnly(steps) == LiveOnly(init) + [step];
        AfterOneMore(s.shown, LiveOnly(init), step);
      } else {
        assert LiveOnly(steps) == LiveOnly(init);
      }
    }
  }

  lemma {:induction false} NoneLive(steps: seq<Step>)
    requires forall step :: step in steps ==> !IsLive(step)
    ensures LiveOnly(steps) == []
  {
    if steps != [] {
      assert steps[|steps| - 1] in steps;
      NoneLive(steps[..|steps| - 1]);
    }
  }

  /** However many historical submissions and completions there are, nothing published changes before a publication. */
  lemma HistoryStaysHidden(s: Projections, steps: seq<Step>)
    requires forall step :: step in steps ==> step.SubmitHistorical? || step.CompleteHistorical?
    ensures SystemAfter(s, steps).shown == s.shown
  {
    ShownFollowsLive(s, steps);
    NoneLive(steps);
  }

  // ----- what publication may show

  lemma AccumulatedIsTop(activity: seq<ActivityItem>, published: seq<ActivityItem>, hidden: set<EventId>)
    requires DistinctIds(activity) && DistinctIds(published)
    ensures IsTop(Accumulated(activity, published, hidden),
                  (set x | x in activity && x.eventId !in hidden) + (set x | x in published && x.eventId in hidden),
                  ACTIVITY_LIMIT)
  {
    var s := Filtered(activity, hidden, false) + Filtered(published, hidden, true);
    AccumulatedIsDistinct(activity, published, hidden);
    FilteredItems(activity, hidden, false);
    FilteredItems(published, hidden, true);
    NormalizedIsTop(s);
    assert Items(s) == (set x | x in activity && x.eventId !in hidden)
           + (set x | x in published && x.eventId in hidden);
  }

  /** An event of an unfinished drain, or whose private copy belongs to a blocked run, is shown as published before. */
  lemma UnfinishedStaysAsPublished(activity: seq<ActivityItem>, published: seq<ActivityItem>,
                                   deferred: map<DrainId, set<EventId>>, blocked: set<RunId>, x: ActivityItem)
    requires DistinctIds(activity) && DistinctIds(published)
    requires x in Accumulated(activity, published, HiddenIds(activity, deferred, blocked))
    ensures (exists d :: d in deferred && x.eventId in deferred[d]) ==> x in published
    ensures (forall p :: p in activity && p.eventId == x.eventId && p.taskRunId.Some? && p.taskRunId.value in blocked
               ==> x in published)
    ensures x !in published ==> x in activity
  {
    var hidden := HiddenIds(activity, deferred, blocked);
    AccumulatedIsTop(activity, published, hidden);
  }
}
