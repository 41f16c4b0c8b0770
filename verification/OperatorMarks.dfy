/** Exactly when the buffer's durability marks stay those of the history. */
module OperatorMarks {
  import opened Types
  import opened Entities
  import opened ActivityOrder
  import opened Operator
  import opened OperatorProofs
  import opened OperatorLimits

  // ----- agreement on what is open is what right marks need

  /** An outcome that gives another mark. */
  function OtherOutcome(durability: Durability): WriteOutcome {
    if durability.Durable? then NotCommitted else WroteDurable
  }

  /** Marked by the history's open identities but not by the buffer's, an item is no longer the history's own. */
  lemma MarkGoesAstray(top: seq<ActivityItem>, all: set<ActivityItem>, a: set<EventId>, b: set<EventId>,
                       x: ActivityItem)
    requires UniqueIds(all) && IsTop(top, all, ACTIVITY_LIMIT) && x in top && x.eventId in b && x.eventId !in a
    ensures var durability := DurabilityOf(OtherOutcome(x.durability));
            !IsTop(MapItems(Reclassify(a, durability), top), MapSet(Reclassify(b, durability), all), ACTIVITY_LIMIT)
  {
    var durability := DurabilityOf(OtherOutcome(x.durability));
    var i :| 0 <= i < |top| && top[i] == x;
    assert MapItems(Reclassify(a, durability), top)[i] == x;
    assert x in MapItems(Reclassify(a, durability), top);
    forall y | y in all ensures Reclassify(b, durability)(y) != x {
      assert x in all;
    }
  }

  /** After the step the buffer is the top of the history. */
  ghost predicate CompletesRight(p: Projection, h: History, step: Step) {
    IsTop(Next(p, step).activity, HistoryNext(h, step).items, ACTIVITY_LIMIT)
  }

  lemma MarkedTop(top: seq<ActivityItem>, all: set<ActivityItem>, a: set<EventId>, b: set<EventId>,
                  durability: Durability)
    requires UniqueIds(all) && IsTop(top, all, ACTIVITY_LIMIT) && Agrees(top, a, b)
    ensures IsTop(MapItems(Reclassify(a, durability), top), MapSet(Reclassify(b, durability), all), ACTIVITY_LIMIT)
  {
    ReclassifyKeepsOrder(b, durability);
    MarkedAlike(top, a, b, durability);
    MapTop(Reclassify(b, durability), top, all, ACTIVITY_LIMIT);
  }

  /**
   * Buffer and history agree on what a historical submission has open exactly when, whatever the outcome of the write,
   * completing it leaves the buffer the top of the history.
   */
  lemma AgreementIsNeeded(p: Projection, h: History)
    requires UniqueIds(h.items) && IsTop(p.activity, h.items, ACTIVITY_LIMIT) && p.deferredPending <= h.deferredPending
    ensures Agrees(p.activity, p.deferredPending, h.deferredPending)
            <==> forall outcome :: CompletesRight(p, h, CompleteHistorical(outcome))
  {
    forall outcome | Agrees(p.activity, p.deferredPending, h.deferredPending)
      ensures CompletesRight(p, h, CompleteHistorical(outcome))
    {
      MarkedTop(p.activity, h.items, p.deferredPending, h.deferredPending, DurabilityOf(outcome));
    }
    if !Agrees(p.activity, p.deferredPending, h.deferredPending) {
      var x :| x in p.activity && x.eventId in h.deferredPending && x.eventId !in p.deferredPending;
      MarkGoesAstray(p.activity, h.items, p.deferredPending, h.deferredPending, x);
      assert !CompletesRight(p, h, CompleteHistorical(OtherOutcome(x.durability)));
    }
  }

  /** The same for a live submission. */
  lemma LiveAgreementIsNeeded(p: Projection, h: History)
    requires UniqueIds(h.items) && IsTop(p.activity, h.items, ACTIVITY_LIMIT) && p.pending <= h.pending
    ensures Agrees(p.activity, p.pending, h.pending) <==> forall outcome :: CompletesRight(p, h, Complete(outcome))
  {
    forall outcome | Agrees(p.activity, p.pending, h.pending) ensures CompletesRight(p, h, Complete(outcome)) {
      MarkedTop(p.activity, h.items, p.pending, h.pending, DurabilityOf(outcome));
    }
    if !Agrees(p.activity, p.pending, h.pending) {
      var x :| x in p.activity && x.eventId in h.pending && x.eventId !in p.pending;
      MarkGoesAstray(p.activity, h.items, p.pending, h.pending, x);
      assert !CompletesRight(p, h, Complete(OtherOutcome(x.durability)));
    }
  }

  // ----- the condition on the buffer alone

  function WrittenIds(items: set<ActivityItem>): set<EventId> {
    set x | x in items :: x.eventId
  }

  /** Whatever the history has open it has written, or the buffer has open too. */
  predicate OpenIsKnown(p: Projection, h: History) {
    h.pending <= WrittenIds(h.items) + p.pending && h.deferredPending <= WrittenIds(h.items) + p.deferredPending
  }

  /** What a submission of the other kind has open in the buffer. */
  function OtherOpen(p: Projection, step: Step): set<EventId>
    requires step.Submit? || step.SubmitHistorical?
  {
    if step.Submit? then p.deferredPending else p.pending
  }

  /**
   * What the program could check before a submission: the buffer is full, and the batch brings into it an event that
   * it does not hold and that no submission of the other kind has open.
   */
  predicate MayRevive(p: Projection, step: Step)
    requires step.Submit? || step.SubmitHistorical?
  {
    && |p.activity| == ACTIVITY_LIMIT
    && exists id :: id in RecordedIds(step.batch) && id !in Ids(p.activity) && id !in OtherOpen(p, step)
                    && id in Ids(Settled(Submitted(p.activity, p.terminalTimes, step.batch)))
  }

  /** A buffer with room has lost nothing, so nothing can be revived. */
  lemma RoomMeansNothingLost(p: Projection, h: History, id: EventId)
    requires IsTop(p.activity, h.items, ACTIVITY_LIMIT) && |p.activity| < ACTIVITY_LIMIT && id in WrittenIds(h.items)
    ensures id in Ids(p.activity)
  {
    var x :| x in h.items && x.eventId == id;
    assert x in p.activity;
  }

  lemma CannotRevive(p: Projection, h: History, step: Step)
    requires step.Submit? || step.SubmitHistorical?
    requires Refines(p, h) && OpenIsKnown(p, h) && !MayRevive(p, step)
    ensures KeepsMarks(p, h, step)
  {
    if |p.activity| < ACTIVITY_LIMIT {
      forall id | id in WrittenIds(h.items) ensures id in Ids(p.activity) { RoomMeansNothingLost(p, h, id); }
    }
  }

  /** A history of the full buffer that has lost event `id` and has it open in both kinds of submission. */
  lemma LostAndOpen(p: Projection, id: EventId) returns (h: History)
    requires Normal(p.activity) && |p.activity| == ACTIVITY_LIMIT && id !in Ids(p.activity)
    ensures Refines(p, h) && OpenIsKnown(p, h) && id in h.pending && id in h.deferredPending
  {
    var last := p.activity[|p.activity| - 1];
    var lost := last.(eventId := id, eventTimestampMs := last.eventTimestampMs - 1);
    h := History(Items(p.activity) + {lost}, p.pending + {id}, p.deferredPending + {id});
    DistinctIsUnique(p.activity);
    forall x | x in p.activity ensures x.eventId != id { assert x.eventId in Ids(p.activity); }
    forall i | 0 <= i < |p.activity| ensures Before(p.activity[i], lost) {
      if i < |p.activity| - 1 { BeforeIsTotalOrder(p.activity[i], last, lost); }
    }
    assert lost.eventId in WrittenIds(h.items);
  }

  /**
   * An orderly submission, live or historical, keeps the marks of the buffer right for every history that the buffer
   * may come from, exactly when it cannot revive an event, which the buffer and the batch decide.
   */
  lemma MarksAreSafeExactly(p: Projection, step: Step)
    requires Normal(p.activity) && (step.Submit? || step.SubmitHistorical?) && Orderly(p, step)
    ensures (forall h: History :: Refines(p, h) && OpenIsKnown(p, h) ==> Refines(Next(p, step), HistoryNext(h, step)))
            <==> !MayRevive(p, step)
  {
    if MayRevive(p, step) {
      var id :| id in RecordedIds(step.batch) && id !in Ids(p.activity) && id !in OtherOpen(p, step)
                && id in Ids(Settled(Submitted(p.activity, p.terminalTimes, step.batch)));
      var h := LostAndOpen(p, id);
      StepRefinesExactly(p, h, step);
      assert !Refines(Next(p, step), HistoryNext(h, step));
    } else {
      forall h: History | Refines(p, h) && OpenIsKnown(p, h) ensures Refines(Next(p, step), HistoryNext(h, step)) {
        CannotRevive(p, h, step);
        StepRefinesExactly(p, h, step);
      }
    }
  }

  // ----- one event

  /** The event would be kept by the buffer. */
  predicate Admits(top: seq<ActivityItem>, v: ActivityItem) {
    |top| < ACTIVITY_LIMIT || Before(v, top[|top| - 1])
  }

  function RecordAs(historical: bool, v: ActivityItem): Step {
    if historical then SubmitHistorical("", [RecordEvent(Some(v))]) else Submit([RecordEvent(Some(v))])
  }

  lemma OneSubmitted(p: Projection, h: History, historical: bool, v: ActivityItem)
    ensures var step := RecordAs(historical, v);
            && RecordedIds(step.batch) == {v.eventId}
            && Settled(Submitted(p.activity, p.terminalTimes, step.batch))
               == Normalized(WithoutId(p.activity, v.eventId) + [v])
            && Submitted(p.activity, p.terminalTimes, step.batch).pending == {v.eventId}
            && HistorySubmitted(h.items, step.batch) == Written(Replaced(h.items, v), {v.eventId})
  {
    var op: PersistOp := RecordEvent(Some(v));
    var batch := [op];
    assert batch[..0] == [] && RecordedIds(batch[..0]) == {};
    var start, began := Buffer(p.activity, p.terminalTimes, false, {}), Written(h.items, {});
    assert Recorded(start, batch) == RecordedOne(Recorded(start, []), op);
    assert Lined(Recorded(start, batch), batch) == LinedOne(Lined(Recorded(start, batch), []), op);
    assert WrittenBy(began, batch) == WrittenOne(WrittenBy(began, []), op);
    assert RelinkedBy(WrittenBy(began, batch), batch) == RelinkedOne(RelinkedBy(WrittenBy(began, batch), []), op);
  }

  lemma NothingToRemove(s: seq<ActivityItem>, id: EventId)
    requires id !in Ids(s)
    ensures WithoutId(s, id) == s
  {
    if s != [] {
      var init, last := s[..|s| - 1], s[|s| - 1];
      assert last in s && forall x :: x in init ==> x in s;
      NothingToRemove(init, id);
      assert s == init + [last];
    }
  }

  lemma SameSize<T>(a: set<T>, b: set<T>)
    requires a <= b && |a| == |b|
    ensures a == b
  {
    assert b == a + (b - a);
  }

  lemma NewHeld(top: seq<ActivityItem>, v: ActivityItem, r: seq<ActivityItem>)
    requires Normal(top) && DistinctIds(top + [v]) && IsTop(r, Items(top + [v]), ACTIVITY_LIMIT)
    ensures v in r <==> Admits(top, v)
  {
    var s := top + [v];
    DistinctIsUnique(s);
    SortedIsDistinct(r, Items(s));
    ItemsCount(r);
    ItemsCount(s);
    ItemsCount(top);
    assert Items(s) == Items(top) + {v};
    assert v in Items(s);
    if |top| < ACTIVITY_LIMIT {
      NothingIsDropped(r, s, ACTIVITY_LIMIT);
    } else {
      var last := top[|top| - 1];
      assert last in top && last in Items(s) && last != v;
      assert s[|top| - 1] == last && s[|top|] == v;
      BeforeIsTotalOrder(v, last, v);
      if v in r {
        assert Items(r) != Items(s);
        var z :| z in Items(s) && z !in Items(r);
        assert Before(v, z) && z in top;
        var i :| 0 <= i < |top| && top[i] == z;
        if i < |top| - 1 { BeforeIsTotalOrder(v, z, last); }
      } else {
        assert Items(r) <= Items(top);
        SameSize(Items(r), Items(top));
        assert last in Items(r);
      }
    }
  }

  /** A new event stays in the buffer exactly when there is room for it or it sorts before the last item. */
  lemma NewEventIsHeldExactly(top: seq<ActivityItem>, v: ActivityItem)
    requires Normal(top) && v.eventId !in Ids(top)
    ensures v.eventId in Ids(Normalized(WithoutId(top, v.eventId) + [v])) <==> Admits(top, v)
  {
    var s := top + [v];
    var r := Normalized(s);
    NothingToRemove(top, v.eventId);
    forall x | x in top ensures x.eventId != v.eventId { assert x.eventId in Ids(top); }
    assert DistinctIds(s);
    NormalizedIsTop(s);
    assert v in s && v in Items(s);
    NewHeld(top, v, r);
    assert v.eventId in Ids(r) <==> v in r by {
      forall x | x in r && x.eventId == v.eventId ensures x == v { assert x in Items(s); }
    }
  }

  /** The event revives an open one: it is new to the buffer, which keeps it, and open in the history only. */
  predicate RevivesOne(top: seq<ActivityItem>, v: ActivityItem, a: set<EventId>, b: set<EventId>) {
    v.eventId !in Ids(top) && v.eventId in b && v.eventId !in a && Admits(top, v)
  }

  lemma OneRevivesExactly(p: Projection, h: History, historical: bool, v: ActivityItem, a: set<EventId>,
                          b: set<EventId>)
    requires Normal(p.activity)
    ensures Revives(p, RecordAs(historical, v).batch, a, b) <==> RevivesOne(p.activity, v, a, b)
  {
    OneSubmitted(p, h, historical, v);
    if v.eventId !in Ids(p.activity) { NewEventIsHeldExactly(p.activity, v); }
    if RevivesOne(p.activity, v, a, b) {
      var id := v.eventId;
      assert id in RecordedIds(RecordAs(historical, v).batch);
    }
  }

  /**
   * Recording one event that displaces nothing keeps buffer and history together, marks included, exactly when it does
   * not revive an event that a submission of the other kind has open.
   */
  lemma RecordKeepsMarksExactly(p: Projection, h: History, historical: bool, v: ActivityItem)
    requires Refines(p, h) && !Displaces(p.activity, h.items, v)
    ensures var step := RecordAs(historical, v);
            Refines(Next(p, step), HistoryNext(h, step))
            <==> !(if historical then RevivesOne(p.activity, v, p.pending, h.pending)
                   else RevivesOne(p.activity, v, p.deferredPending, h.deferredPending))
  {
    var a := if historical then p.pending else p.deferredPending;
    var b := if historical then h.pending else h.deferredPending;
    SortedIsDistinct(p.activity, h.items);
    OneSubmitted(p, h, historical, v);
    UndisplacedIsTop(p.activity, h.items, v);
    OneRevivesExactly(p, h, historical, v, a, b);
    OpenAgreeExactly(p, RecordAs(historical, v).batch, a, b);
    assert UniqueIds(Replaced(h.items, v));
  }

  /** On the buffer alone: it is full, and would keep an event that it neither holds nor has open otherwise. */
  predicate MayReviveOne(p: Projection, historical: bool, v: ActivityItem) {
    && |p.activity| == ACTIVITY_LIMIT && v.eventId !in Ids(p.activity)
    && v.eventId !in (if historical then p.pending else p.deferredPending)
    && Before(v, p.activity[|p.activity| - 1])
  }

  /**
   * Recording one event keeps the marks right for every history that the buffer may come from and that loses no item
   * to the record, exactly when the event is not one that the full buffer may have lost.
   */
  lemma RecordMarksAreSafeExactly(p: Projection, historical: bool, v: ActivityItem)
    requires Normal(p.activity)
    ensures (forall h: History :: Refines(p, h) && OpenIsKnown(p, h) && !Displaces(p.activity, h.items, v)
               ==> Refines(Next(p, RecordAs(historical, v)), HistoryNext(h, RecordAs(historical, v))))
            <==> !MayReviveOne(p, historical, v)
  {
    var step := RecordAs(historical, v);
    if MayReviveOne(p, historical, v) {
      var h := LostAndOpen(p, v.eventId);
      RecordKeepsMarksExactly(p, h, historical, v);
      assert !Displaces(p.activity, h.items, v) && !Refines(Next(p, step), HistoryNext(h, step));
    } else {
      forall h: History | Refines(p, h) && OpenIsKnown(p, h) && !Displaces(p.activity, h.items, v)
        ensures Refines(Next(p, step), HistoryNext(h, step))
      {
        RecordKeepsMarksExactly(p, h, historical, v);
        if |p.activity| < ACTIVITY_LIMIT && v.eventId in WrittenIds(h.items) { RoomMeansNothingLost(p, h, v.eventId); }
      }
    }
  }

  // ----- whole runs that the buffer alone shows to be right

  /** Everything the history has open it has written. */
  predicate OpenIsWritten(h: History) {
    h.pending <= WrittenIds(h.items) && h.deferredPending <= WrittenIds(h.items)
  }

  lemma MapSetIds(f: ActivityItem -> ActivityItem, items: set<ActivityItem>)
    requires KeepsOrder(f)
    ensures WrittenIds(items) <= WrittenIds(MapSet(f, items))
  {
    forall x | x in items ensures x.eventId in WrittenIds(MapSet(f, items)) {
      assert f(x) in MapSet(f, items) && f(x).eventId == x.eventId;
    }
  }

  lemma ReplacedIds(items: set<ActivityItem>, v: ActivityItem)
    ensures WrittenIds(items) + {v.eventId} <= WrittenIds(Replaced(items, v))
  {
    assert v in Replaced(items, v);
    forall x | x in items ensures x.eventId in WrittenIds(Replaced(items, v)) {
      if x.eventId != v.eventId { assert x in Replaced(items, v); }
    }
  }

  lemma {:induction false} WrittenKnows(w: Written, batch: seq<PersistOp>)
    requires w.touched <= WrittenIds(w.items)
    ensures var v := WrittenBy(w, batch); v.touched <= WrittenIds(v.items) && WrittenIds(w.items) <= WrittenIds(v.items)
  {
    if batch != [] {
      var init, op := batch[..|batch| - 1], batch[|batch| - 1];
      WrittenKnows(w, init);
      if Records(op) { ReplacedIds(WrittenBy(w, init).items, op.item.value); }
    }
  }

  lemma {:induction false} RelinkedKnows(w: Written, batch: seq<PersistOp>)
    requires w.touched <= WrittenIds(w.items)
    ensures RelinkedBy(w, batch).touched <= WrittenIds(RelinkedBy(w, batch).items)
    ensures WrittenIds(w.items) <= WrittenIds(RelinkedBy(w, batch).items)
  {
    if batch != [] {
      var init, op := batch[..|batch| - 1], batch[|batch| - 1];
      RelinkedKnows(w, init);
      if op.MergeTaskRuns? {
        RelabelKeepsOrder(op.survivor, op.absorbed);
        MapSetIds(Relabel(op.survivor, op.absorbed), RelinkedBy(w, init).items);
      }
    }
  }

  lemma StepKnows(h: History, step: Step)
    requires OpenIsWritten(h)
    ensures OpenIsWritten(HistoryNext(h, step))
  {
    if step.Submit? || step.SubmitHistorical? {
      WrittenKnows(Written(h.items, {}), step.batch);
      RelinkedKnows(WrittenBy(Written(h.items, {}), step.batch), step.batch);
    } else if step.Complete? {
      ReclassifyKeepsOrder(h.pending, DurabilityOf(step.outcome));
      MapSetIds(Reclassify(h.pending, DurabilityOf(step.outcome)), h.items);
    } else if step.CompleteHistorical? {
      ReclassifyKeepsOrder(h.deferredPending, DurabilityOf(step.outcome));
      MapSetIds(Reclassify(h.deferredPending, DurabilityOf(step.outcome)), h.items);
    }
  }

  /** At every step, by the buffer alone: no record is late, and none can revive an event. */
  ghost predicate SafeThroughout(p: Projection, steps: seq<Step>) {
    steps == [] || (
      var init, step := steps[..|steps| - 1], steps[|steps| - 1];
      && SafeThroughout(p, init) && Orderly(After(p, init), step)
      && (step.Submit? || step.SubmitHistorical? ==> !MayRevive(After(p, init), step)))
  }

  lemma {:induction false} SafeRunRefines(p: Projection, h: History, steps: seq<Step>)
    requires Refines(p, h) && OpenIsWritten(h) && SafeThroughout(p, steps)
    ensures Refines(After(p, steps), HistoryAfter(h, steps)) && OpenIsWritten(HistoryAfter(h, steps))
  {
    if steps != [] {
      var init, step := steps[..|steps| - 1], steps[|steps| - 1];
      SafeRunRefines(p, h, init);
      var q, g := After(p, init), HistoryAfter(h, init);
      if step.Submit? || step.SubmitHistorical? { CannotRevive(q, g, step); }
      StepRefinesExactly(q, g, step);
      StepKnows(g, step);
    }
  }

  /** From empty, a safe run leaves the buffer equal, marks included, to the normalized list of the whole history. */
  lemma SafeBufferIsNormalizedHistory(times: map<RunId, int>, steps: seq<Step>, all: seq<ActivityItem>)
    requires SafeThroughout(Fresh(times), steps)
    requires DistinctIds(all) && Items(all) == HistoryAfter(NOTHING, steps).items
    ensures After(Fresh(times), steps).activity == Normalized(all)
  {
    SafeRunRefines(Fresh(times), NOTHING, steps);
    NormalizedIsTop(all);
    TopIsUnique(After(Fresh(times), steps).activity, Normalized(all), Items(all), ACTIVITY_LIMIT);
  }

  // ----- a run in which a revived event misses its mark

  /** A historical submission that only merges: what it opens in the buffer and in the history. */
  lemma OneMerge(p: Projection, h: History, drain: DrainId, survivor: RunId, absorbed: RunId)
    ensures var step := SubmitHistorical(drain, [MergeTaskRuns(survivor, absorbed)]);
            && Orderly(p, step) && KeepsMarks(p, h, step)
            && Next(p, step).deferredPending == MentioningIds(p.activity, absorbed)
            && HistoryNext(h, step).deferredPending
               == (set x | x in h.items && x.taskRunId == Some(absorbed) :: x.eventId)
            && HistoryNext(h, step).items == MapSet(Relabel(survivor, absorbed), h.items)
  {
    var op: PersistOp := MergeTaskRuns(survivor, absorbed);
    var batch := [op];
    assert batch[..0] == [];
    var start, began := Buffer(p.activity, p.terminalTimes, false, {}), Written(h.items, {});
    assert Recorded(start, batch) == RecordedOne(Recorded(start, []), op) == start;
    assert NeverLaterIn(start, batch[..0]);
    assert Lined(start, batch) == LinedOne(Lined(start, []), op);
    assert WrittenBy(began, batch) == WrittenOne(WrittenBy(began, []), op) == began;
    assert RelinkedBy(began, batch) == RelinkedOne(RelinkedBy(began, []), op);
    assert RecordedIds(batch[..0]) == {};
  }

  /** The event that left the buffer, recorded again as the newest of all. */
  function Revived(): ActivityItem { Numbered(ACTIVITY_LIMIT).(eventTimestampMs := 1) }

  /** The buffer no longer knows that the historical submission touched the revived event. */
  ghost predicate Forgotten(p: Projection, h: History) {
    && Revived().eventId in h.deferredPending && Revived().eventId !in p.deferredPending
    && forall x :: x in h.items && x.eventId != Revived().eventId ==> x.eventTimestampMs <= 0
  }

  lemma MergeForgetsMark(p: Projection, h: History)
    requires AtNumber(p, h, ACTIVITY_LIMIT + 1)
    ensures var step := SubmitHistorical("", [MergeTaskRuns(1, 0)]); Forgotten(Next(p, step), HistoryNext(h, step))
  {
    OneMerge(p, h, "", 1, 0);
    SortedIsDistinct(p.activity, h.items);
    NewestStaysOldestLeaves(p.activity);
    var lost := Numbered(ACTIVITY_LIMIT);
    assert lost in h.items && lost.taskRunId == Some(0) && lost.eventId == ACTIVITY_LIMIT;
    forall x | x in p.activity ensures x.eventId != ACTIVITY_LIMIT { assert x in FirstNumbered(ACTIVITY_LIMIT + 1); }
  }

  /** A newest event is in the buffer as soon as it is recorded. */
  lemma NewestIsHeld(p: Projection, h: History, v: ActivityItem)
    requires v in h.items && UniqueIds(h.items) && IsTop(p.activity, h.items, ACTIVITY_LIMIT)
    requires forall x :: x in h.items && x != v ==> Before(v, x)
    ensures v in p.activity
  {
    if v !in p.activity {
      assert p.activity[0] in p.activity;
      BeforeIsTotalOrder(v, p.activity[0], v);
    }
  }

  lemma RevivedIsHeld(p: Projection, h: History)
    requires UniqueIds(h.items) && IsTop(p.activity, h.items, ACTIVITY_LIMIT) && Forgotten(p, h)
    requires Revived().eventId !in Ids(p.activity)
    ensures var step := RecordStep(Revived());
            var q, g := Next(p, step), HistoryNext(h, step);
            && Revived() in q.activity && q.deferredPending == p.deferredPending
               && g.deferredPending == h.deferredPending
            && (forall x :: x in g.items && x.eventId == Revived().eventId ==> x == Revived())
  {
    var v := Revived();
    var q, g := Next(p, RecordStep(v)), HistoryNext(h, RecordStep(v));
    OneRecord(p, h, v);
    RecordKeepsTopExactly(p, h, v);
    forall x | x in g.items && x != v ensures Before(v, x) {
      assert x in h.items && x.eventId != v.eventId;
    }
    NewestIsHeld(q, g, v);
  }

  lemma FailureMarksOnlyHistory(p: Projection, h: History, v: ActivityItem)
    requires v in p.activity && v.durability == Durable && v.eventId !in p.deferredPending
             && v.eventId in h.deferredPending
    requires forall x :: x in h.items && x.eventId == v.eventId ==> x == v
    ensures var step := CompleteHistorical(NotCommitted);
            !IsTop(Next(p, step).activity, HistoryNext(h, step).items, ACTIVITY_LIMIT)
  {
    var step := CompleteHistorical(NotCommitted);
    var i :| 0 <= i < |p.activity| && p.activity[i] == v;
    assert Next(p, step).activity[i] == v;
    assert v in Next(p, step).activity;
    forall x | x in h.items ensures Reclassify(h.deferredPending, CurrentOnly)(x) != v {
    }
  }

  lemma RevivalFails(p: Projection, h: History)
    requires Refines(p, h) && Forgotten(p, h)
    ensures var record, failure := RecordStep(Revived()), CompleteHistorical(NotCommitted);
            && Orderly(p, record) && !KeepsMarks(p, h, record)
            && !IsTop(Next(Next(p, record), failure).activity, HistoryNext(HistoryNext(h, record), failure).items,
                      ACTIVITY_LIMIT)
  {
    var v, record := Revived(), RecordStep(Revived());
    assert v.eventId !in Ids(p.activity);
    assert RecordedIds(record.batch[..0]) == {} && v.eventId in RecordedIds(record.batch);
    NewEventIsOrderly(p, v);
    RevivedIsHeld(p, h);
    FailureMarksOnlyHistory(Next(p, record), HistoryNext(h, record), v);
  }

  /**
   * An orderly run from empty in which one mark goes wrong: a historical merge touches an event the buffer has lost,
   * a live submission records that event again, and the merge fails to commit. The history marks the event as
   * current only, and the buffer does not.
   */
  lemma RevivalMissesAMark(times: map<RunId, int>) returns (steps: seq<Step>, record: Step, failure: Step)
    ensures Refines(After(Fresh(times), steps), HistoryAfter(NOTHING, steps))
    ensures OrderlyThroughout(Fresh(times), steps + [record] + [failure])
    ensures !IsTop(After(Fresh(times), steps + [record] + [failure]).activity,
                   HistoryAfter(NOTHING, steps + [record] + [failure]).items, ACTIVITY_LIMIT)
  {
    var numbered, merge := NumberedSteps(ACTIVITY_LIMIT + 1), SubmitHistorical("", [MergeTaskRuns(1, 0)]);
    steps, record, failure := numbered + [merge], RecordStep(Revived()), CompleteHistorical(NotCommitted);
    NumberedRun(times, ACTIVITY_LIMIT + 1);
    var p, h := After(Fresh(times), numbered), HistoryAfter(NOTHING, numbered);
    OneMerge(p, h, "", 1, 0);
    StepRefinesExactly(p, h, merge);
    OrderlyOneMore(Fresh(times), numbered, merge);
    MergeForgetsMark(p, h);
    AfterOneMore(Fresh(times), numbered, merge);
    HistoryAfterOneMore(NOTHING, numbered, merge);
    RevivalFails(After(Fresh(times), steps), HistoryAfter(NOTHING, steps));
    AfterOneMore(Fresh(times), steps, record);
    HistoryAfterOneMore(NOTHING, steps, record);
    OrderlyOneMore(Fresh(times), steps, record);
    OrderlyOneMore(Fresh(times), steps + [record], failure);
    AfterOneMore(Fresh(times), steps + [record], failure);
    HistoryAfterOneMore(NOTHING, steps + [record], failure);
  }
}
