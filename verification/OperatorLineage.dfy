/** Which version of an event a buffer holds, which run it belongs to, and which runs have terminal times. */
module OperatorLineage {
  import opened Types
  import opened Entities
  import opened ActivityOrder
  import opened Operator
  import opened OperatorProofs
  import opened OperatorHistory

  // ----- a run followed through the merges of a batch

  /** The run that `run` has become after the merges of the batch, in order. */
  function Became(batch: seq<PersistOp>, run: Option<RunId>): Option<RunId> {
    if batch == [] then run
    else
      var now, op := Became(batch[..|batch| - 1], run), batch[|batch| - 1];
      if op.MergeTaskRuns? && now == Some(op.absorbed) then Some(op.survivor) else now
  }

  /** The run was absorbed by some merge of the batch on its way. */
  predicate MovedBy(batch: seq<PersistOp>, run: Option<RunId>) {
    exists i :: 0 <= i < |batch| && batch[i].MergeTaskRuns? && Became(batch[..i], run) == Some(batch[i].absorbed)
  }

  /** The last version of the event that the batch records. */
  function LastRecorded(batch: seq<PersistOp>, id: EventId): Option<ActivityItem> {
    if batch == [] then None
    else
      var op := batch[|batch| - 1];
      if op.RecordEvent? && op.item.Some? && op.item.value.eventId == id then op.item
      else LastRecorded(batch[..|batch| - 1], id)
  }

  /** The version is the batch's last of its event, or it was there and the batch records none of its event. */
  ghost predicate IsBase(items: set<ActivityItem>, batch: seq<PersistOp>, v: ActivityItem) {
    match LastRecorded(batch, v.eventId)
    case Some(last) => v == last
    case None => v in items
  }

  /** The version, now belonging to the run that its own has become. */
  function Carried(batch: seq<PersistOp>, v: ActivityItem): ActivityItem {
    v.(taskRunId := Became(batch, v.taskRunId))
  }

  lemma {:induction false} LastRecordedIsOfEvent(batch: seq<PersistOp>, id: EventId)
    ensures LastRecorded(batch, id).Some? ==> LastRecorded(batch, id).value.eventId == id
  {
    if batch != [] { LastRecordedIsOfEvent(batch[..|batch| - 1], id); }
  }

  // ----- one submission to a set of versions

  /** The versions after the first pass are the bases. */
  lemma {:induction false} WrittenAreBases(w: Written, batch: seq<PersistOp>, v: ActivityItem)
    ensures v in WrittenBy(w, batch).items <==> IsBase(w.items, batch, v)
  {
    if batch != [] {
      var init, op := batch[..|batch| - 1], batch[|batch| - 1];
      WrittenAreBases(w, init, v);
    }
  }

  /** After the second pass, too, each in the run that its own has become. */
  lemma {:induction false} RelinkedAreCarried(w: Written, batch: seq<PersistOp>, x: ActivityItem)
    ensures x in RelinkedBy(w, batch).items <==> exists v :: v in w.items && x == Carried(batch, v)
  {
    if batch == [] {
      if x in w.items { assert x == Carried(batch, x); }
      forall v | v in w.items && x == Carried(batch, v) ensures x == v {}
    } else {
      var init, op := batch[..|batch| - 1], batch[|batch| - 1];
      var before := RelinkedBy(w, init).items;
      forall v | v in w.items ensures Carried(init, v) in before { RelinkedAreCarried(w, init, Carried(init, v)); }
      if op.MergeTaskRuns? {
        var f := Relabel(op.survivor, op.absorbed);
        if x in RelinkedBy(w, batch).items {
          var y :| y in before && f(y) == x;
          RelinkedAreCarried(w, init, y);
          var v :| v in w.items && y == Carried(init, v);
          assert x == Carried(batch, v);
        }
        if v :| v in w.items && x == Carried(batch, v) {
          assert f(Carried(init, v)) == x;
        }
      } else {
        RelinkedAreCarried(w, init, x);
        forall v | v in w.items ensures Carried(batch, v) == Carried(init, v) {}
      }
    }
  }

  /** A submission leaves exactly the carried bases. */
  lemma SubmissionCarries(items: set<ActivityItem>, batch: seq<PersistOp>, x: ActivityItem)
    ensures x in HistorySubmitted(items, batch).items <==> exists v :: IsBase(items, batch, v) && x == Carried(batch, v)
  {
    var w := WrittenBy(Written(items, {}), batch);
    RelinkedAreCarried(w, batch, x);
    forall v ensures v in w.items <==> IsBase(items, batch, v) { WrittenAreBases(Written(items, {}), batch, v); }
  }

  /** Touched are the events recorded, and those whose run was absorbed on its way. */
  ghost predicate IsTouched(items: set<ActivityItem>, batch: seq<PersistOp>, id: EventId) {
    || LastRecorded(batch, id).Some?
    || exists v :: IsBase(items, batch, v) && v.eventId == id && MovedBy(batch, v.taskRunId)
  }

  lemma {:induction false} RecordedAreTouched(w: Written, batch: seq<PersistOp>, id: EventId)
    ensures id in WrittenBy(w, batch).touched <==> id in w.touched || LastRecorded(batch, id).Some?
  {
    if batch != [] { RecordedAreTouched(w, batch[..|batch| - 1], id); }
  }

  lemma MovedByOneMore(batch: seq<PersistOp>, run: Option<RunId>)
    requires batch != []
    ensures var init, op := batch[..|batch| - 1], batch[|batch| - 1];
            MovedBy(batch, run)
            <==> MovedBy(init, run) || (op.MergeTaskRuns? && Became(init, run) == Some(op.absorbed))
  {
    var n := |batch| - 1;
    var init := batch[..n];
    forall i | 0 <= i < n ensures batch[..i] == init[..i] && batch[i] == init[i] {}
    if MovedBy(init, run) {
      var i :| 0 <= i < n && init[i].MergeTaskRuns? && Became(init[..i], run) == Some(init[i].absorbed);
      assert batch[i].MergeTaskRuns? && Became(batch[..i], run) == Some(batch[i].absorbed);
    }
  }

  lemma AbsorbedAreTouched(w: Written, init: seq<PersistOp>, absorbed: RunId, id: EventId)
    ensures (exists x :: x in RelinkedBy(w, init).items && x.taskRunId == Some(absorbed) && x.eventId == id)
            <==> exists v :: v in w.items && v.eventId == id && Became(init, v.taskRunId) == Some(absorbed)
  {
    if x :| x in RelinkedBy(w, init).items && x.taskRunId == Some(absorbed) && x.eventId == id {
      RelinkedAreCarried(w, init, x);
      var v :| v in w.items && x == Carried(init, v);
      assert v.eventId == id && Became(init, v.taskRunId) == Some(absorbed);
    }
    if v :| v in w.items && v.eventId == id && Became(init, v.taskRunId) == Some(absorbed) {
      RelinkedAreCarried(w, init, Carried(init, v));
      assert Carried(init, v).taskRunId == Some(absorbed);
    }
  }

  lemma {:induction false} MovedAreTouched(w: Written, batch: seq<PersistOp>, id: EventId)
    ensures id in RelinkedBy(w, batch).touched
            <==> id in w.touched || exists v :: v in w.items && v.eventId == id && MovedBy(batch, v.taskRunId)
  {
    if batch == [] {
      assert forall run :: !MovedBy(batch, run);
    } else {
      var init, op := batch[..|batch| - 1], batch[|batch| - 1];
      MovedAreTouched(w, init, id);
      forall run ensures MovedBy(batch, run)
                         <==> MovedBy(init, run) || (op.MergeTaskRuns? && Became(init, run) == Some(op.absorbed))
      {
        MovedByOneMore(batch, run);
      }
      if op.MergeTaskRuns? { AbsorbedAreTouched(w, init, op.absorbed, id); }
    }
  }

  lemma SubmissionTouches(items: set<ActivityItem>, batch: seq<PersistOp>, id: EventId)
    ensures id in HistorySubmitted(items, batch).touched <==> IsTouched(items, batch, id)
  {
    var w := WrittenBy(Written(items, {}), batch);
    RecordedAreTouched(Written(items, {}), batch, id);
    MovedAreTouched(w, batch, id);
    forall v ensures v in w.items <==> IsBase(items, batch, v) { WrittenAreBases(Written(items, {}), batch, v); }
  }

  // ----- one submission to a buffer

  lemma {:induction false} BufferRecords(b: Buffer, batch: seq<PersistOp>)
    ensures var w := WrittenBy(Written(Items(b.activity), b.pending), batch);
            Items(Recorded(b, batch).activity) == w.items && Recorded(b, batch).pending == w.touched
  {
    if batch != [] {
      var init, op := batch[..|batch| - 1], batch[|batch| - 1];
      BufferRecords(b, init);
      if Records(op) {
        var before, v := Recorded(b, init), op.item.value;
        WithoutIdItems(before.activity, v.eventId);
        assert Items(WithoutId(before.activity, v.eventId) + [v]) == Replaced(Items(before.activity), v);
      }
    }
  }

  lemma {:induction false} BufferRelinks(b: Buffer, batch: seq<PersistOp>)
    ensures var w := RelinkedBy(Written(Items(b.activity), b.pending), batch);
            Items(Lined(b, batch).activity) == w.items && Lined(b, batch).pending == w.touched
  {
    if batch != [] {
      var init, op := batch[..|batch| - 1], batch[|batch| - 1];
      BufferRelinks(b, init);
      if op.MergeTaskRuns? {
        var before := Lined(b, init);
        MapItemsItems(Relabel(op.survivor, op.absorbed), before.activity);
        assert MentioningIds(before.activity, op.absorbed)
               == set x | x in Items(before.activity) && x.taskRunId == Some(op.absorbed) :: x.eventId;
      }
    }
  }

  /** Before it is cut to size, the buffer holds exactly the carried bases, and exactly the touched events are open. */
  lemma SubmittedCarries(activity: seq<ActivityItem>, times: map<RunId, int>, batch: seq<PersistOp>)
    ensures var b := Submitted(activity, times, batch);
            && (forall x :: x in b.activity
                  <==> exists v :: IsBase(Items(activity), batch, v) && x == Carried(batch, v))
            && (forall id :: id in b.pending <==> IsTouched(Items(activity), batch, id))
  {
    var b, start := Submitted(activity, times, batch), Buffer(activity, times, false, {});
    BufferRecords(start, batch);
    BufferRelinks(Recorded(start, batch), batch);
    assert Items(b.activity) == HistorySubmitted(Items(activity), batch).items;
    forall x ensures x in b.activity <==> exists v :: IsBase(Items(activity), batch, v) && x == Carried(batch, v) {
      SubmissionCarries(Items(activity), batch, x);
      assert x in b.activity <==> x in Items(b.activity);
    }
    forall id ensures id in b.pending <==> IsTouched(Items(activity), batch, id) {
      SubmissionTouches(Items(activity), batch, id);
    }
  }

  lemma NormalIsTop(s: seq<ActivityItem>)
    requires Normal(s)
    ensures IsTop(s, Items(s), ACTIVITY_LIMIT)
  {
  }

  lemma SubmittedDistinct(activity: seq<ActivityItem>, times: map<RunId, int>, batch: seq<PersistOp>)
    requires DistinctIds(activity)
    ensures DistinctIds(Submitted(activity, times, batch).activity)
  {
    var start := Buffer(activity, times, false, {});
    RecordedDistinct(start, batch);
    LinedDistinct(Recorded(start, batch), batch);
  }

  /**
   * After a submission the buffer is the top of the carried bases: of each event the last version recorded or the one
   * held before, unchanged but for its run, which is what the version's own run has become.
   */
  lemma SubmissionShows(activity: seq<ActivityItem>, times: map<RunId, int>, batch: seq<PersistOp>,
                        all: set<ActivityItem>)
    requires Normal(activity)
    requires forall x :: x in all <==> exists v :: IsBase(Items(activity), batch, v) && x == Carried(batch, v)
    ensures IsTop(Settled(Submitted(activity, times, batch)), all, ACTIVITY_LIMIT)
  {
    var b := Submitted(activity, times, batch);
    SubmittedCarries(activity, times, batch);
    SubmittedDistinct(activity, times, batch);
    assert all == Items(b.activity);
    if b.changed {
      NormalizedIsTop(b.activity);
    } else {
      ChangedIsSound(activity, times, batch);
      NormalIsTop(activity);
    }
  }

  /** An absorbed run is named no more, unless a later merge of the batch makes it a survivor again. */
  lemma {:induction false} AbsorbedIsLeft(batch: seq<PersistOp>, i: nat, run: Option<RunId>)
    requires i < |batch| && batch[i].MergeTaskRuns? && batch[i].survivor != batch[i].absorbed
    requires forall j :: i < j < |batch| && batch[j].MergeTaskRuns? ==> batch[j].survivor != batch[i].absorbed
    ensures Became(batch, run) != Some(batch[i].absorbed)
    decreases |batch|
  {
    var n := |batch| - 1;
    if i < n {
      assert forall j :: i < j < n ==> batch[..n][j] == batch[j];
      AbsorbedIsLeft(batch[..n], i, run);
    }
  }

  // ----- whole runs

  /** The batch of a live or historical submission. */
  function BatchOf(step: Step): Option<seq<PersistOp>> {
    match step
    case Submit(batch) => Some(batch)
    case SubmitHistorical(_, batch) => Some(batch)
    case _ => None
  }

  /**
   * The version is its event's latest: the last recorded over the whole run, or else one of the versions at the start,
   * carried along by every batch from the one that recorded it on.
   */
  ghost predicate IsLatest(items: set<ActivityItem>, steps: seq<Step>, x: ActivityItem)
    decreases |steps|, 0
  {
    if steps == [] then x in items
    else
      var init, batch := steps[..|steps| - 1], BatchOf(steps[|steps| - 1]);
      if batch.None? then IsLatest(items, init, x)
      else exists v :: x == Carried(batch.value, v) && IsSource(items, init, batch.value, v)
  }

  /** What the batch carries along: its own last version of the event, or the latest before it. */
  ghost predicate IsSource(items: set<ActivityItem>, init: seq<Step>, batch: seq<PersistOp>, v: ActivityItem)
    decreases |init|, 1
  {
    match LastRecorded(batch, v.eventId)
    case Some(last) => v == last
    case None => IsLatest(items, init, v)
  }

  lemma CarriedUnmarked(batch: seq<PersistOp>, v: ActivityItem, u: ActivityItem)
    requires Unmark()(v) == Unmark()(u)
    ensures Unmark()(Carried(batch, v)) == Unmark()(Carried(batch, u))
  {
    assert v.taskRunId == Unmark()(v).taskRunId && u.taskRunId == Unmark()(u).taskRunId;
    assert Carried(batch, v) == Carried(batch, u).(durability := v.durability) by {
      assert v == u.(durability := v.durability);
    }
  }

  /** The item is the latest version of its event, but for its durability. */
  ghost predicate ShowsLatest(items: set<ActivityItem>, steps: seq<Step>, x: ActivityItem) {
    exists v :: IsLatest(items, steps, v) && Unmark()(x) == Unmark()(v)
  }

  lemma LatestByBatch(items: set<ActivityItem>, steps: seq<Step>, before: set<ActivityItem>, x: ActivityItem,
                      batch: seq<PersistOp>)
    requires steps != [] && BatchOf(steps[|steps| - 1]) == Some(batch)
    requires forall y :: y in before ==> ShowsLatest(items, steps[..|steps| - 1], y)
    requires exists v :: IsBase(before, batch, v) && x == Carried(batch, v)
    ensures ShowsLatest(items, steps, x)
  {
    var init := steps[..|steps| - 1];
    var v :| IsBase(before, batch, v) && x == Carried(batch, v);
    if LastRecorded(batch, v.eventId).Some? {
      assert IsLatest(items, steps, x);
    } else {
      var u :| IsLatest(items, init, u) && Unmark()(v) == Unmark()(u);
      assert u.eventId == Unmark()(u).eventId == Unmark()(v).eventId == v.eventId;
      CarriedUnmarked(batch, v, u);
      assert IsLatest(items, steps, Carried(batch, u));
    }
  }

  lemma LatestReclassified(items: set<ActivityItem>, steps: seq<Step>, ids: set<EventId>, d: Durability,
                           x: ActivityItem)
    requires ShowsLatest(items, steps, x)
    ensures ShowsLatest(items, steps, Reclassify(ids, d)(x))
  {
    var v :| IsLatest(items, steps, v) && Unmark()(x) == Unmark()(v);
    assert Unmark()(Reclassify(ids, d)(x)) == Unmark()(x);
  }

  lemma LatestWithoutBatch(items: set<ActivityItem>, steps: seq<Step>, x: ActivityItem)
    requires steps != [] && BatchOf(steps[|steps| - 1]).None? && ShowsLatest(items, steps[..|steps| - 1], x)
    ensures ShowsLatest(items, steps, x)
  {
    var v :| IsLatest(items, steps[..|steps| - 1], v) && Unmark()(x) == Unmark()(v);
    assert IsLatest(items, steps, v);
  }

  lemma SettledCarries(p: Projection, batch: seq<PersistOp>, x: ActivityItem)
    requires x in Settled(Submitted(p.activity, p.terminalTimes, batch))
    ensures exists v :: IsBase(Items(p.activity), batch, v) && x == Carried(batch, v)
  {
    var b := Submitted(p.activity, p.terminalTimes, batch);
    SubmittedCarries(p.activity, p.terminalTimes, batch);
    if b.changed { NormalizedHolds(b.activity, x); }
    assert x in b.activity;
  }

  lemma MappedFrom(f: ActivityItem -> ActivityItem, s: seq<ActivityItem>, x: ActivityItem) returns (y: ActivityItem)
    requires x in MapItems(f, s)
    ensures y in s && x == f(y)
  {
    var i :| 0 <= i < |MapItems(f, s)| && MapItems(f, s)[i] == x;
    y := s[i];
  }

  /** What a step other than a submission does to the buffer: marks at most. */
  lemma OtherStepsMark(p: Projection, step: Step, x: ActivityItem) returns (y: ActivityItem)
    requires BatchOf(step).None? && x in Next(p, step).activity
    ensures y in p.activity && x == y.(durability := x.durability)
  {
    match step
    case Complete(outcome) => y := MappedFrom(Reclassify(p.pending, DurabilityOf(outcome)), p.activity, x);
    case CompleteHistorical(outcome) =>
      y := MappedFrom(Reclassify(p.deferredPending, DurabilityOf(outcome)), p.activity, x);
    case Publish(_, _, _) => y := x;
  }

  /**
   * Over any run, whatever is late, evicted or revived: a buffered event is the latest version of its event but for the
   * durability, and belongs to the run that the run it was recorded for has become.
   */
  lemma {:induction false} BufferShowsLatest(p: Projection, steps: seq<Step>, x: ActivityItem)
    requires x in After(p, steps).activity
    ensures ShowsLatest(Items(p.activity), steps, x)
    decreases |steps|
  {
    if steps == [] {
      assert IsLatest(Items(p.activity), steps, x);
    } else {
      var init, step := steps[..|steps| - 1], steps[|steps| - 1];
      var before := After(p, init);
      if BatchOf(step).Some? {
        SettledCarries(before, BatchOf(step).value, x);
        forall y | y in Items(before.activity) ensures ShowsLatest(Items(p.activity), init, y) {
          BufferShowsLatest(p, init, y);
        }
        LatestByBatch(Items(p.activity), steps, Items(before.activity), x, BatchOf(step).value);
      } else {
        var y := OtherStepsMark(before, step, x);
        BufferShowsLatest(p, init, y);
        LatestWithoutBatch(Items(p.activity), steps, y);
        var v :| IsLatest(Items(p.activity), steps, v) && Unmark()(y) == Unmark()(v);
        assert Unmark()(x) == Unmark()(v);
      }
    }
  }

  /** There is one latest version of every event. */
  lemma {:induction false} LatestIsUnique(items: set<ActivityItem>, steps: seq<Step>, x: ActivityItem, y: ActivityItem)
    requires UniqueIds(items) && IsLatest(items, steps, x) && IsLatest(items, steps, y) && x.eventId == y.eventId
    ensures x == y
    decreases |steps|
  {
    if steps != [] {
      var init, batch := steps[..|steps| - 1], BatchOf(steps[|steps| - 1]);
      if batch.None? {
        LatestIsUnique(items, init, x, y);
      } else {
        var v :| x == Carried(batch.value, v) && IsSource(items, init, batch.value, v);
        var w :| y == Carried(batch.value, w) && IsSource(items, init, batch.value, w);
        assert v.eventId == x.eventId && w.eventId == y.eventId;
        if LastRecorded(batch.value, v.eventId).None? { LatestIsUnique(items, init, v, w); }
      }
    }
  }

  lemma HistoryMarks(h: History, step: Step)
    requires BatchOf(step).None?
    ensures Unmarked(HistoryNext(h, step).items) == Unmarked(h.items)
  {
    match step
    case Complete(outcome) => UnmarkedReclassified(h.pending, DurabilityOf(outcome), h.items);
    case CompleteHistorical(outcome) => UnmarkedReclassified(h.deferredPending, DurabilityOf(outcome), h.items);
    case Publish(_, _, _) =>
  }

  lemma HistoryOfBatch(h: History, step: Step)
    requires BatchOf(step).Some?
    ensures HistoryNext(h, step).items == HistorySubmitted(h.items, BatchOf(step).value).items
  {
  }

  lemma BatchIsLatest(items: set<ActivityItem>, steps: seq<Step>, before: set<ActivityItem>, batch: seq<PersistOp>,
                      x: ActivityItem)
    requires steps != [] && BatchOf(steps[|steps| - 1]) == Some(batch)
    requires forall v :: Unmark()(v) in Unmarked(before) <==> ShowsLatest(items, steps[..|steps| - 1], v)
    requires Unmark()(x) in Unmarked(HistorySubmitted(before, batch).items)
    ensures ShowsLatest(items, steps, x)
  {
    var y :| y in HistorySubmitted(before, batch).items && Unmark()(y) == Unmark()(x);
    SubmissionCarries(before, batch, y);
    forall z | z in before ensures ShowsLatest(items, steps[..|steps| - 1], z) {
      assert Unmark()(z) in Unmarked(before);
    }
    LatestByBatch(items, steps, before, y, batch);
  }

  lemma SourceIsLatest(items: set<ActivityItem>, init: seq<Step>, batch: seq<PersistOp>, v: ActivityItem)
    requires IsSource(items, init, batch, v) && LastRecorded(batch, v.eventId).None?
    ensures IsLatest(items, init, v)
  {
  }

  lemma LatestIsHeld(items: set<ActivityItem>, steps: seq<Step>, before: set<ActivityItem>, batch: seq<PersistOp>,
                     x: ActivityItem)
    requires steps != [] && BatchOf(steps[|steps| - 1]) == Some(batch)
    requires forall v :: Unmark()(v) in Unmarked(before) <==> ShowsLatest(items, steps[..|steps| - 1], v)
    requires ShowsLatest(items, steps, x)
    ensures Unmark()(x) in Unmarked(HistorySubmitted(before, batch).items)
  {
    var y :| IsLatest(items, steps, y) && Unmark()(x) == Unmark()(y);
    var v :| y == Carried(batch, v) && IsSource(items, steps[..|steps| - 1], batch, v);
    if LastRecorded(batch, v.eventId).Some? {
      assert IsBase(before, batch, v);
      SubmissionCarries(before, batch, y);
    } else {
      SourceIsLatest(items, steps[..|steps| - 1], batch, v);
      assert ShowsLatest(items, steps[..|steps| - 1], v);
      var u :| u in before && Unmark()(u) == Unmark()(v);
      assert u.eventId == Unmark()(u).eventId == v.eventId;
      assert IsBase(before, batch, u);
      SubmissionCarries(before, batch, Carried(batch, u));
      CarriedUnmarked(batch, v, u);
    }
  }

  /** The unbounded history holds, but for marks, exactly the latest versions. */
  lemma {:induction false} HistoryIsLatest(h: History, steps: seq<Step>, x: ActivityItem)
    ensures Unmark()(x) in Unmarked(HistoryAfter(h, steps).items) <==> ShowsLatest(h.items, steps, x)
    decreases |steps|
  {
    if steps == [] {
      forall v ensures IsLatest(h.items, steps, v) <==> v in h.items {}
      if Unmark()(x) in Unmarked(h.items) {
        var v :| v in h.items && Unmark()(v) == Unmark()(x);
        assert IsLatest(h.items, steps, v);
      }
    } else {
      var init, step := steps[..|steps| - 1], steps[|steps| - 1];
      var before := HistoryAfter(h, init);
      if BatchOf(step).None? {
        HistoryMarks(before, step);
        HistoryIsLatest(h, init, x);
        forall v ensures IsLatest(h.items, steps, v) <==> IsLatest(h.items, init, v) {}
      } else {
        forall v ensures Unmark()(v) in Unmarked(before.items) <==> ShowsLatest(h.items, init, v) {
          HistoryIsLatest(h, init, v);
        }
        HistoryOfBatch(before, step);
        if Unmark()(x) in Unmarked(HistoryAfter(h, steps).items) {
          BatchIsLatest(h.items, steps, before.items, BatchOf(step).value, x);
        }
        if ShowsLatest(h.items, steps, x) { LatestIsHeld(h.items, steps, before.items, BatchOf(step).value, x); }
      }
    }
  }

  /**
   * No buffered event names a run that the last submission absorbed, unless a later merge of that submission made the
   * run a survivor again.
   */
  lemma {:induction false} AbsorbedRunsAreGone(p: Projection, steps: seq<Step>, k: nat, i: nat, x: ActivityItem,
                                               batch: seq<PersistOp>)
    requires k < |steps| && BatchOf(steps[k]) == Some(batch)
    requires forall l :: k < l < |steps| ==> BatchOf(steps[l]).None?
    requires i < |batch| && batch[i].MergeTaskRuns? && batch[i].survivor != batch[i].absorbed
    requires forall j :: i < j < |batch| && batch[j].MergeTaskRuns? ==> batch[j].survivor != batch[i].absorbed
    requires x in After(p, steps).activity
    ensures x.taskRunId != Some(batch[i].absorbed)
    decreases |steps|
  {
    var init := steps[..|steps| - 1];
    if k == |steps| - 1 {
      SettledCarries(After(p, init), batch, x);
      var v :| IsBase(Items(After(p, init).activity), batch, v) && x == Carried(batch, v);
      AbsorbedIsLeft(batch, i, v.taskRunId);
    } else {
      var y := OtherStepsMark(After(p, init), steps[|steps| - 1], x);
      AbsorbedRunsAreGone(p, init, k, i, y, batch);
    }
  }
}
