/** The buffer shows the first ten thousand events of the whole history, whatever becomes of the durability marks. */
module OperatorHistory {
  import opened Types
  import opened Entities
  import opened ActivityOrder
  import opened Operator
  import opened OperatorProofs

  // ----- a history marked as the buffer marks

  /** What a step makes of a history that takes its durability marks from the buffer's own open identities. */
  function ShadowNext(items: set<ActivityItem>, p: Projection, step: Step): set<ActivityItem> {
    match step
    case Submit(batch) => HistorySubmitted(items, batch).items
    case Complete(outcome) => MapSet(Reclassify(p.pending, DurabilityOf(outcome)), items)
    case SubmitHistorical(_, batch) => HistorySubmitted(items, batch).items
    case CompleteHistorical(outcome) => MapSet(Reclassify(p.deferredPending, DurabilityOf(outcome)), items)
    case Publish(_, _, _) => items
  }

  function ShadowAfter(items: set<ActivityItem>, p: Projection, steps: seq<Step>): set<ActivityItem> {
    if steps == [] then items
    else
      var init := steps[..|steps| - 1];
      ShadowNext(ShadowAfter(items, p, init), After(p, init), steps[|steps| - 1])
  }

  lemma ShadowStep(p: Projection, items: set<ActivityItem>, step: Step)
    requires UniqueIds(items) && IsTop(p.activity, items, ACTIVITY_LIMIT) && Orderly(p, step)
    ensures UniqueIds(ShadowNext(items, p, step))
    ensures IsTop(Next(p, step).activity, ShadowNext(items, p, step), ACTIVITY_LIMIT)
  {
    match step
    case Submit(batch) => SubmissionTops(p, items, batch);
    case SubmitHistorical(_, batch) => SubmissionTops(p, items, batch);
    case Complete(outcome) =>
      ReclassifyKeepsOrder(p.pending, DurabilityOf(outcome));
      MapTop(Reclassify(p.pending, DurabilityOf(outcome)), p.activity, items, ACTIVITY_LIMIT);
    case CompleteHistorical(outcome) =>
      ReclassifyKeepsOrder(p.deferredPending, DurabilityOf(outcome));
      MapTop(Reclassify(p.deferredPending, DurabilityOf(outcome)), p.activity, items, ACTIVITY_LIMIT);
    case Publish(_, _, _) =>
  }

  lemma {:induction false} ShadowRun(p: Projection, items: set<ActivityItem>, steps: seq<Step>)
    requires UniqueIds(items) && IsTop(p.activity, items, ACTIVITY_LIMIT) && OrderlyThroughout(p, steps)
    ensures UniqueIds(ShadowAfter(items, p, steps))
    ensures IsTop(After(p, steps).activity, ShadowAfter(items, p, steps), ACTIVITY_LIMIT)
  {
    if steps != [] {
      var init, step := steps[..|steps| - 1], steps[|steps| - 1];
      ShadowRun(p, items, init);
      ShadowStep(After(p, init), ShadowAfter(items, p, init), step);
    }
  }

  // ----- items without their marks

  function Unmark(): ActivityItem -> ActivityItem {
    (x: ActivityItem) => x.(durability := Durable)
  }

  function Unmarked(items: set<ActivityItem>): set<ActivityItem> { MapSet(Unmark(), items) }

  lemma UnmarkKeepsOrder()
    ensures KeepsOrder(Unmark())
  {
  }

  /** Unmarking is blind to everything the function does with marks. */
  ghost predicate RespectsUnmark(f: ActivityItem -> ActivityItem) {
    forall x, y :: Unmark()(x) == Unmark()(y) ==> Unmark()(f(x)) == Unmark()(f(y))
  }

  lemma UnmarkedReplaced(a: set<ActivityItem>, b: set<ActivityItem>, v: ActivityItem)
    requires Unmarked(a) <= Unmarked(b)
    ensures Unmarked(Replaced(a, v)) <= Unmarked(Replaced(b, v))
  {
    forall y | y in Unmarked(Replaced(a, v)) ensures y in Unmarked(Replaced(b, v)) {
      var x :| x in Replaced(a, v) && Unmark()(x) == y;
      if x == v {
        assert v in Replaced(b, v);
      } else {
        assert Unmark()(x) in Unmarked(a);
        var z :| z in b && Unmark()(z) == y;
        assert z.eventId == x.eventId && z in Replaced(b, v);
      }
    }
  }

  lemma UnmarkedMapped(f: ActivityItem -> ActivityItem, a: set<ActivityItem>, b: set<ActivityItem>)
    requires RespectsUnmark(f) && Unmarked(a) <= Unmarked(b)
    ensures Unmarked(MapSet(f, a)) <= Unmarked(MapSet(f, b))
  {
    forall y | y in Unmarked(MapSet(f, a)) ensures y in Unmarked(MapSet(f, b)) {
      var w :| w in MapSet(f, a) && Unmark()(w) == y;
      var x :| x in a && f(x) == w;
      assert Unmark()(x) in Unmarked(a);
      var z :| z in b && Unmark()(z) == Unmark()(x);
      assert f(z) in MapSet(f, b) && Unmark()(f(z)) == y;
    }
  }

  lemma UnmarkedReclassified(ids: set<EventId>, durability: Durability, items: set<ActivityItem>)
    ensures Unmarked(MapSet(Reclassify(ids, durability), items)) == Unmarked(items)
  {
    var f := Reclassify(ids, durability);
    forall y | y in Unmarked(items) ensures y in Unmarked(MapSet(f, items)) {
      var x :| x in items && Unmark()(x) == y;
      assert f(x) in MapSet(f, items) && Unmark()(f(x)) == y;
    }
    forall y | y in Unmarked(MapSet(f, items)) ensures y in Unmarked(items) {
      var w :| w in MapSet(f, items) && Unmark()(w) == y;
      var x :| x in items && f(x) == w;
      assert Unmark()(x) == y;
    }
  }

  lemma RelabelRespectsUnmark(survivor: RunId, absorbed: RunId)
    ensures RespectsUnmark(Relabel(survivor, absorbed))
  {
    forall x, y | Unmark()(x) == Unmark()(y)
      ensures Unmark()(Relabel(survivor, absorbed)(x)) == Unmark()(Relabel(survivor, absorbed)(y))
    {
      assert x == y.(durability := x.durability);
    }
  }

  lemma {:induction false} UnmarkedWritten(v: Written, w: Written, batch: seq<PersistOp>)
    requires Unmarked(v.items) == Unmarked(w.items)
    ensures Unmarked(WrittenBy(v, batch).items) == Unmarked(WrittenBy(w, batch).items)
  {
    if batch != [] {
      var init, op := batch[..|batch| - 1], batch[|batch| - 1];
      UnmarkedWritten(v, w, init);
      if Records(op) {
        UnmarkedReplaced(WrittenBy(v, init).items, WrittenBy(w, init).items, op.item.value);
        UnmarkedReplaced(WrittenBy(w, init).items, WrittenBy(v, init).items, op.item.value);
      }
    }
  }

  lemma {:induction false} UnmarkedRelinked(v: Written, w: Written, batch: seq<PersistOp>)
    requires Unmarked(v.items) == Unmarked(w.items)
    ensures Unmarked(RelinkedBy(v, batch).items) == Unmarked(RelinkedBy(w, batch).items)
  {
    if batch != [] {
      var init, op := batch[..|batch| - 1], batch[|batch| - 1];
      UnmarkedRelinked(v, w, init);
      if op.MergeTaskRuns? {
        var f := Relabel(op.survivor, op.absorbed);
        RelabelRespectsUnmark(op.survivor, op.absorbed);
        UnmarkedMapped(f, RelinkedBy(v, init).items, RelinkedBy(w, init).items);
        UnmarkedMapped(f, RelinkedBy(w, init).items, RelinkedBy(v, init).items);
      }
    }
  }

  lemma UnmarkedSubmitted(a: set<ActivityItem>, b: set<ActivityItem>, batch: seq<PersistOp>)
    requires Unmarked(a) == Unmarked(b)
    ensures Unmarked(HistorySubmitted(a, batch).items) == Unmarked(HistorySubmitted(b, batch).items)
  {
    UnmarkedWritten(Written(a, {}), Written(b, {}), batch);
    UnmarkedRelinked(WrittenBy(Written(a, {}), batch), WrittenBy(Written(b, {}), batch), batch);
  }

  lemma UnmarkedStep(p: Projection, items: set<ActivityItem>, h: History, step: Step)
    requires Unmarked(items) == Unmarked(h.items)
    ensures Unmarked(ShadowNext(items, p, step)) == Unmarked(HistoryNext(h, step).items)
  {
    match step
    case Submit(batch) => UnmarkedSubmitted(items, h.items, batch);
    case SubmitHistorical(_, batch) => UnmarkedSubmitted(items, h.items, batch);
    case Complete(outcome) =>
      UnmarkedReclassified(p.pending, DurabilityOf(outcome), items);
      UnmarkedReclassified(h.pending, DurabilityOf(outcome), h.items);
    case CompleteHistorical(outcome) =>
      UnmarkedReclassified(p.deferredPending, DurabilityOf(outcome), items);
      UnmarkedReclassified(h.deferredPending, DurabilityOf(outcome), h.items);
    case Publish(_, _, _) =>
  }

  /** But for marks, the shadow is the history. */
  lemma {:induction false} ShadowIsHistory(p: Projection, h: History, steps: seq<Step>)
    ensures Unmarked(ShadowAfter(h.items, p, steps)) == Unmarked(HistoryAfter(h, steps).items)
  {
    if steps != [] {
      var init, step := steps[..|steps| - 1], steps[|steps| - 1];
      ShadowIsHistory(p, h, init);
      UnmarkedStep(After(p, init), ShadowAfter(h.items, p, init), HistoryAfter(h, init), step);
    }
  }

  // ----- the buffer is the top of the history

  /**
   * Over any run of live and historical submissions, merges, completions and publications in which no record sorts
   * later than the buffered version it replaces, the buffer is the top of a set that differs from the history in
   * marks only.
   */
  lemma RunShowsHistory(p: Projection, h: History, steps: seq<Step>) returns (items: set<ActivityItem>)
    requires UniqueIds(h.items) && IsTop(p.activity, h.items, ACTIVITY_LIMIT) && OrderlyThroughout(p, steps)
    ensures UniqueIds(items) && Unmarked(items) == Unmarked(HistoryAfter(h, steps).items)
    ensures IsTop(After(p, steps).activity, items, ACTIVITY_LIMIT)
    ensures IsTop(MapItems(Unmark(), After(p, steps).activity), Unmarked(HistoryAfter(h, steps).items), ACTIVITY_LIMIT)
  {
    items := ShadowAfter(h.items, p, steps);
    ShadowRun(p, h.items, steps);
    ShadowIsHistory(p, h, steps);
    UnmarkKeepsOrder();
    MapTop(Unmark(), After(p, steps).activity, items, ACTIVITY_LIMIT);
  }

  /** From empty, and without marks, the buffer is what normalizing any enumeration of the whole history gives. */
  lemma BufferIsNormalizedHistory(times: map<RunId, int>, steps: seq<Step>, all: seq<ActivityItem>)
    requires OrderlyThroughout(Fresh(times), steps)
    requires DistinctIds(all) && Items(all) == Unmarked(HistoryAfter(NOTHING, steps).items)
    ensures MapItems(Unmark(), After(Fresh(times), steps).activity) == Normalized(all)
  {
    var items := RunShowsHistory(Fresh(times), NOTHING, steps);
    NormalizedIsTop(all);
    DistinctIsUnique(all);
    TopIsUnique(MapItems(Unmark(), After(Fresh(times), steps).activity), Normalized(all), Items(all), ACTIVITY_LIMIT);
  }

  predicate IsCompletion(step: Step) { step.Complete? || step.CompleteHistorical? }

  lemma {:induction false} UncompletedShadow(p: Projection, h: History, steps: seq<Step>)
    requires forall step :: step in steps ==> !IsCompletion(step)
    ensures ShadowAfter(h.items, p, steps) == HistoryAfter(h, steps).items
  {
    if steps != [] {
      assert steps[|steps| - 1] in steps;
      UncompletedShadow(p, h, steps[..|steps| - 1]);
    }
  }

  /** Until something is completed, marks included. */
  lemma UncompletedRunIsExact(p: Projection, h: History, steps: seq<Step>)
    requires UniqueIds(h.items) && IsTop(p.activity, h.items, ACTIVITY_LIMIT) && OrderlyThroughout(p, steps)
    requires forall step :: step in steps ==> !IsCompletion(step)
    ensures IsTop(After(p, steps).activity, HistoryAfter(h, steps).items, ACTIVITY_LIMIT)
  {
    ShadowRun(p, h.items, steps);
    UncompletedShadow(p, h, steps);
  }
}
