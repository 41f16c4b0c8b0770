/** Exactly which records the bounded buffer survives, and runs from empty after which it is wrong. */
module OperatorLimits {
  import opened Types
  import opened Entities
  import opened ActivityOrder
  import opened Operator
  import opened OperatorProofs

  // ----- exactly when one re-recorded event keeps the buffer faithful

  /**
   * For one history: a buffered version is replaced by one that does not sort before every item missing from the
   * buffer.
   */
  ghost predicate Displaces(top: seq<ActivityItem>, all: set<ActivityItem>, v: ActivityItem) {
    && v.eventId in Ids(top)
    && exists z :: z in all && z !in top && !Before(v, z)
  }

  /** Within the limit, the top of a list keeps every item. */
  lemma NothingIsDropped(top: seq<ActivityItem>, s: seq<ActivityItem>, limit: nat)
    requires DistinctIds(s) && |s| <= limit && IsTop(top, Items(s), limit)
    ensures Items(top) == Items(s)
  {
    DistinctIsUnique(s);
    SortedIsDistinct(top, Items(s));
    ItemsCount(top);
    ItemsCount(s);
    forall x | x in Items(s) ensures x in Items(top) {
      if x !in top {
        assert Items(top) <= Items(s) - {x};
        SubsetCount(Items(top), Items(s) - {x});
      }
    }
  }

  lemma ReplacementItems(top: seq<ActivityItem>, v: ActivityItem)
    requires DistinctIds(top)
    ensures var s := WithoutId(top, v.eventId) + [v]; Items(s) == Replaced(Items(top), v) && DistinctIds(s)
  {
    var rest := WithoutId(top, v.eventId);
    WithoutIdItems(top, v.eventId);
    forall j | 0 <= j < |rest| ensures rest[j].eventId != v.eventId { assert rest[j] in rest; }
  }

  lemma ReplacementCount(top: seq<ActivityItem>, v: ActivityItem)
    requires DistinctIds(top) && v.eventId in Ids(top)
    ensures |WithoutId(top, v.eventId) + [v]| == |top|
  {
    var s := WithoutId(top, v.eventId) + [v];
    ReplacementItems(top, v);
    ItemsCount(s);
    ItemsCount(top);
    var y :| y in top && y.eventId == v.eventId;
    assert Items(s) == (Items(top) - {y}) + {v};
    assert v !in Items(top) - {y};
  }

  lemma DisplacedIsMissed(top: seq<ActivityItem>, all: set<ActivityItem>, v: ActivityItem)
    requires IsTop(top, all, ACTIVITY_LIMIT) && UniqueIds(all) && Displaces(top, all, v)
    ensures !IsTop(Normalized(WithoutId(top, v.eventId) + [v]), Replaced(all, v), ACTIVITY_LIMIT)
  {
    var s := WithoutId(top, v.eventId) + [v];
    var y :| y in top && y.eventId == v.eventId;
    var z :| z in all && z !in top && !Before(v, z);
    SortedIsDistinct(top, all);
    ReplacementItems(top, v);
    NormalizedIsTop(s);
    assert z.eventId != y.eventId;
    ReplacementCount(top, v);
    NothingIsDropped(Normalized(s), s, ACTIVITY_LIMIT);
    assert v in Items(s);
    assert z in Replaced(all, v) && z !in Items(s);
    assert z !in Normalized(s);
  }

  lemma UndisplacedCovers(top: seq<ActivityItem>, all: set<ActivityItem>, v: ActivityItem)
    requires IsTop(top, all, ACTIVITY_LIMIT) && UniqueIds(all) && !Displaces(top, all, v)
    ensures Covers(Replaced(Items(top), v), Replaced(all, v), ACTIVITY_LIMIT)
  {
    SortedIsDistinct(top, all);
    ItemsCount(top);
    var some := Replaced(Items(top), v);
    forall z | z in Replaced(all, v) && z !in some ensures |Earlier(some, z)| >= ACTIVITY_LIMIT {
      assert z in all && z !in top;
      var kept := set x | x in top && x.eventId != v.eventId;
      if v.eventId in Ids(top) {
        ReplacementCount(top, v);
        ReplacementItems(top, v);
        ItemsCount(WithoutId(top, v.eventId) + [v]);
        assert Before(v, z);
        assert some <= Earlier(some, z);
        SubsetCount(some, Earlier(some, z));
      } else {
        assert Items(top) <= Earlier(some, z);
        SubsetCount(Items(top), Earlier(some, z));
      }
    }
  }

  lemma UndisplacedIsTop(top: seq<ActivityItem>, all: set<ActivityItem>, v: ActivityItem)
    requires IsTop(top, all, ACTIVITY_LIMIT) && UniqueIds(all) && !Displaces(top, all, v)
    ensures IsTop(Normalized(WithoutId(top, v.eventId) + [v]), Replaced(all, v), ACTIVITY_LIMIT)
  {
    var s := WithoutId(top, v.eventId) + [v];
    SortedIsDistinct(top, all);
    ReplacementItems(top, v);
    NormalizedIsTop(s);
    UndisplacedCovers(top, all, v);
    assert UniqueIds(Replaced(all, v));
    CoveredTop(Normalized(s), Items(s), Replaced(all, v), ACTIVITY_LIMIT);
  }

  lemma OneRecord(p: Projection, h: History, v: ActivityItem)
    ensures var step := Submit([RecordEvent(Some(v))]);
            && Next(p, step).activity == Normalized(WithoutId(p.activity, v.eventId) + [v])
            && HistoryNext(h, step).items == Replaced(h.items, v)
  {
    var op: PersistOp := RecordEvent(Some(v));
    var batch := [op];
    assert batch[..0] == [];
    var start, began := Buffer(p.activity, p.terminalTimes, false, {}), Written(h.items, {});
    assert Recorded(start, batch) == RecordedOne(Recorded(start, []), op);
    assert Lined(Recorded(start, batch), batch) == LinedOne(Lined(Recorded(start, batch), []), op);
    assert WrittenBy(began, batch) == WrittenOne(WrittenBy(began, []), op);
    assert RelinkedBy(WrittenBy(began, batch), batch) == RelinkedOne(RelinkedBy(WrittenBy(began, batch), []), op);
  }

  /** For a given history, recording one event keeps the buffer its top exactly when it displaces nothing. */
  lemma RecordKeepsTopExactly(p: Projection, h: History, v: ActivityItem)
    requires IsTop(p.activity, h.items, ACTIVITY_LIMIT) && UniqueIds(h.items)
    ensures var step := Submit([RecordEvent(Some(v))]);
            (IsTop(Next(p, step).activity, HistoryNext(h, step).items, ACTIVITY_LIMIT))
                <==> !Displaces(p.activity, h.items, v)
  {
    OneRecord(p, h, v);
    if Displaces(p.activity, h.items, v) {
      DisplacedIsMissed(p.activity, h.items, v);
    } else {
      UndisplacedIsTop(p.activity, h.items, v);
    }
  }

  /** Nothing but the identity tells the two apart in the order. */
  predicate SameMoment(a: ActivityItem, b: ActivityItem) {
    a.eventTimestampMs == b.eventTimestampMs && a.seenAtMs == b.seenAtMs && a.ingestSeq == b.ingestSeq
  }

  /** An identity the buffer does not hold could sort between its last item and `v`. */
  predicate RoomBetween(top: seq<ActivityItem>, last: ActivityItem, v: ActivityItem) {
    SameMoment(last, v) ==> exists id :: v.eventId < id < last.eventId && id !in Ids(top)
  }

  /**
   * What the program could check before recording: the buffer is full and holds a version of the event, which falls
   * behind its end.
   */
  predicate FallsBehind(top: seq<ActivityItem>, v: ActivityItem) {
    && |top| == ACTIVITY_LIMIT && v.eventId in Ids(top)
    && Before(top[|top| - 1], v) && RoomBetween(top, top[|top| - 1], v)
  }

  lemma BeforeMoment(a: ActivityItem, b: ActivityItem, z: ActivityItem)
    requires Before(a, z) && Before(z, b) && SameMoment(a, b)
    ensures b.eventId < z.eventId < a.eventId
  {
  }

  /** An event that does not fall behind the end of the buffer displaces nothing in any history. */
  lemma NotBehindDisplacesNothing(top: seq<ActivityItem>, all: set<ActivityItem>, v: ActivityItem)
    requires IsTop(top, all, ACTIVITY_LIMIT) && UniqueIds(all) && !FallsBehind(top, v)
    ensures !Displaces(top, all, v)
  {
    if Displaces(top, all, v) {
      var z :| z in all && z !in top && !Before(v, z);
      var last := top[|top| - 1];
      assert last in top && Before(last, z);
      forall x | x in top ensures x.eventId != z.eventId { assert x in all; }
      BeforeIsTotalOrder(v, z, v);
      BeforeIsTotalOrder(last, z, v);
      assert z.eventId !in Ids(top);
      if SameMoment(last, v) { BeforeMoment(last, v, z); }
      assert RoomBetween(top, last, v);
    }
  }

  lemma LargeId(s: seq<ActivityItem>, least: EventId) returns (id: EventId)
    ensures id > least && id !in Ids(s)
  {
    id := least + 1;
    for i := 0 to |s|
      invariant id > least && forall j :: 0 <= j < i ==> s[j].eventId < id
    {
      if s[i].eventId >= id { id := s[i].eventId + 1; }
    }
    assert forall x :: x in s ==> x.eventId < id;
  }

  /** An item of a new identity between the buffer's last item and `v`. */
  lemma Between(top: seq<ActivityItem>, last: ActivityItem, v: ActivityItem) returns (z: ActivityItem)
    requires Before(last, v) && RoomBetween(top, last, v)
    ensures Before(last, z) && Before(z, v) && z.eventId !in Ids(top)
  {
    if SameMoment(last, v) {
      var id :| v.eventId < id < last.eventId && id !in Ids(top);
      z := v.(eventId := id);
    } else {
      var id := LargeId(top, v.eventId);
      z := v.(eventId := id);
    }
  }

  /** An event that falls behind the end of the buffer loses an item of some history with that buffer. */
  lemma BehindDisplaces(top: seq<ActivityItem>, v: ActivityItem) returns (all: set<ActivityItem>)
    requires Normal(top) && FallsBehind(top, v)
    ensures IsTop(top, all, ACTIVITY_LIMIT) && UniqueIds(all) && Displaces(top, all, v)
  {
    var last := top[|top| - 1];
    var z := Between(top, last, v);
    all := Items(top) + {z};
    DistinctIsUnique(top);
    assert z !in top;
    forall i | 0 <= i < |top| ensures Before(top[i], z) {
      if i < |top| - 1 { BeforeIsTotalOrder(top[i], last, z); }
    }
    BeforeIsTotalOrder(z, v, z);
  }

  /** The buffer is still the top of the history after both have recorded the event. */
  ghost predicate RecordKeeps(p: Projection, h: History, v: ActivityItem) {
    var step := Submit([RecordEvent(Some(v))]);
    IsTop(Next(p, step).activity, HistoryNext(h, step).items, ACTIVITY_LIMIT)
  }

  /**
   * Recording one event keeps the buffer the top of whatever history it is the top of, exactly when the event
   * does not fall behind the end of the buffer, which the buffer alone decides.
   */
  lemma RecordIsSafeExactly(p: Projection, v: ActivityItem)
    requires Normal(p.activity)
    ensures (forall h: History :: IsTop(p.activity, h.items, ACTIVITY_LIMIT) && UniqueIds(h.items)
               ==> RecordKeeps(p, h, v))
            <==> !FallsBehind(p.activity, v)
  {
    if FallsBehind(p.activity, v) {
      var all := BehindDisplaces(p.activity, v);
      var h := History(all, {}, {});
      RecordKeepsTopExactly(p, h, v);
      assert IsTop(p.activity, h.items, ACTIVITY_LIMIT) && !RecordKeeps(p, h, v);
    } else {
      forall h: History | IsTop(p.activity, h.items, ACTIVITY_LIMIT)
          && UniqueIds(h.items) ensures RecordKeeps(p, h, v) {
        NotBehindDisplacesNothing(p.activity, h.items, v);
        RecordKeepsTopExactly(p, h, v);
      }
    }
  }

  // ----- a run from empty after which the buffer is wrong

  /** Event `id` of run 0, one millisecond older than event `id - 1`. */
  function Numbered(id: nat): ActivityItem {
    var order: int := id;
    ActivityItem(id, -order, 0, None, Some(0), "", Durable)
  }

  function RecordStep(v: ActivityItem): Step { Submit([RecordEvent(Some(v))]) }

  function NumberedSteps(n: nat): seq<Step> {
    if n == 0 then [] else NumberedSteps(n - 1) + [RecordStep(Numbered(n - 1))]
  }

  function FirstNumbered(n: nat): set<ActivityItem> {
    set id: nat | id < n :: Numbered(id)
  }

  lemma {:induction false} NumberedCount(n: nat)
    ensures |FirstNumbered(n)| == n
  {
    if n > 0 {
      NumberedCount(n - 1);
      assert FirstNumbered(n) == FirstNumbered(n - 1) + {Numbered(n - 1)};
    }
  }

  /** A single new event is orderly. */
  lemma NewEventIsOrderly(p: Projection, v: ActivityItem)
    requires v.eventId !in Ids(p.activity)
    ensures Orderly(p, RecordStep(v))
  {
    var batch: seq<PersistOp> := [RecordEvent(Some(v))];
    var start := Buffer(p.activity, p.terminalTimes, false, {});
    assert batch[..0] == [] && Recorded(start, []) == start;
    assert NeverLaterIn(start, batch[..0]);
  }

  /** The buffer and history after events 0 to n - 1. */
  ghost predicate AtNumber(p: Projection, h: History, n: nat) {
    Refines(p, h) && h.items == FirstNumbered(n) && h.deferredPending == {}
  }

  lemma NextNumber(p: Projection, h: History, n: nat)
    requires AtNumber(p, h, n)
    ensures Orderly(p, RecordStep(Numbered(n)))
            && AtNumber(Next(p, RecordStep(Numbered(n))), HistoryNext(h, RecordStep(Numbered(n))), n + 1)
  {
    var v := Numbered(n);
    assert v.eventId !in Ids(p.activity) by {
      forall x | x in p.activity ensures x.eventId != n { assert x in FirstNumbered(n); }
    }
    NewEventIsOrderly(p, v);
    StepRefinesExactly(p, h, RecordStep(v));
    OneRecord(p, h, v);
    assert FirstNumbered(n + 1) == Replaced(FirstNumbered(n), v);
  }

  lemma OrderlyOneMore(p: Projection, steps: seq<Step>, last: Step)
    requires OrderlyThroughout(p, steps) && Orderly(After(p, steps), last)
    ensures OrderlyThroughout(p, steps + [last])
  {
    assert (steps + [last])[..|steps|] == steps;
  }

  lemma OneMoreNumber(p: Projection, h: History, steps: seq<Step>, n: nat)
    requires OrderlyThroughout(p, steps) && AtNumber(After(p, steps), HistoryAfter(h, steps), n)
    ensures var more := steps + [RecordStep(Numbered(n))];
            OrderlyThroughout(p, more) && AtNumber(After(p, more), HistoryAfter(h, more), n + 1)
  {
    var last := RecordStep(Numbered(n));
    NextNumber(After(p, steps), HistoryAfter(h, steps), n);
    AfterOneMore(p, steps, last);
    HistoryAfterOneMore(h, steps, last);
    OrderlyOneMore(p, steps, last);
  }

  lemma NothingNumbered(p: Projection, h: History)
    requires AtNumber(p, h, 0)
    ensures OrderlyThroughout(p, []) && AtNumber(After(p, []), HistoryAfter(h, []), 0)
  {
  }

  lemma {:induction false} NumberedFrom(p: Projection, h: History, n: nat)
    requires AtNumber(p, h, 0)
    ensures OrderlyThroughout(p, NumberedSteps(n))
    ensures AtNumber(After(p, NumberedSteps(n)), HistoryAfter(h, NumberedSteps(n)), n)
  {
    if n == 0 {
      NothingNumbered(p, h);
    } else {
      NumberedFrom(p, h, n - 1);
      OneMoreNumber(p, h, NumberedSteps(n - 1), n - 1);
    }
  }

  lemma FreshIsNumbered(times: map<RunId, int>)
    ensures AtNumber(Fresh(times), NOTHING, 0)
  {
    assert FirstNumbered(0) == {};
  }

  /** Recording events 0 to n - 1 in order, one at a time. */
  lemma NumberedRun(times: map<RunId, int>, n: nat)
    ensures OrderlyThroughout(Fresh(times), NumberedSteps(n))
    ensures AtNumber(After(Fresh(times), NumberedSteps(n)), HistoryAfter(NOTHING, NumberedSteps(n)), n)
  {
    FreshIsNumbered(times);
    NumberedFrom(Fresh(times), NOTHING, n);
  }

  lemma OldestAndNewest(n: nat, x: ActivityItem)
    requires x in FirstNumbered(n + 1)
    ensures !Before(x, Numbered(0)) && !Before(Numbered(n), x)
  {
  }

  /** Of one event more than the buffer has room for, it holds the newest and has lost the oldest. */
  lemma NewestStaysOldestLeaves(top: seq<ActivityItem>)
    requires IsTop(top, FirstNumbered(ACTIVITY_LIMIT + 1), ACTIVITY_LIMIT) && DistinctIds(top)
    ensures Numbered(0) in top && Numbered(ACTIVITY_LIMIT) !in top
  {
    var all := FirstNumbered(ACTIVITY_LIMIT + 1);
    NumberedCount(ACTIVITY_LIMIT + 1);
    ItemsCount(top);
    assert Items(top) <= all && Items(top) != all;
    var z :| z in all && z !in Items(top);
    assert z !in top && top[0] in top;
    OldestAndNewest(ACTIVITY_LIMIT, z);
    OldestAndNewest(ACTIVITY_LIMIT, top[0]);
    assert Numbered(0) in all;
  }

  /** Event 0, recorded again as the oldest of all. */
  function LateVersion(): ActivityItem { Numbered(0).(eventTimestampMs := -10_001) }

  lemma LateRecordBreaks(p: Projection, h: History)
    requires Refines(p, h) && h.items == FirstNumbered(ACTIVITY_LIMIT + 1)
    ensures !RecordKeeps(p, h, LateVersion())
  {
    var v := LateVersion();
    SortedIsDistinct(p.activity, h.items);
    NewestStaysOldestLeaves(p.activity);
    var oldest := Numbered(ACTIVITY_LIMIT);
    assert oldest in h.items && oldest !in p.activity && !Before(v, oldest);
    assert Numbered(0).eventId in Ids(p.activity);
    assert Displaces(p.activity, h.items, v);
    RecordKeepsTopExactly(p, h, v);
  }

  /**
   * A run from empty: 10 001 events, each older than the one before, and then the newest recorded again as the
   * oldest of all. The buffer is right up to the last step and wrong after it.
   */
  lemma LateRecordingLosesAnEvent(times: map<RunId, int>) returns (steps: seq<Step>, last: Step)
    ensures OrderlyThroughout(Fresh(times), steps)
    ensures IsTop(After(Fresh(times), steps).activity, HistoryAfter(NOTHING, steps).items, ACTIVITY_LIMIT)
    ensures !IsTop(After(Fresh(times), steps + [last]).activity, HistoryAfter(NOTHING, steps + [last]).items,
                   ACTIVITY_LIMIT)
  {
    steps, last := NumberedSteps(ACTIVITY_LIMIT + 1), RecordStep(LateVersion());
    NumberedRun(times, ACTIVITY_LIMIT + 1);
    LateRecordBreaks(After(Fresh(times), steps), HistoryAfter(NOTHING, steps));
    AfterOneMore(Fresh(times), steps, last);
    HistoryAfterOneMore(NOTHING, steps, last);
  }
}
