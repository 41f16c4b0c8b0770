/** The operator projection: private and published activity, terminal times, and deferred history. */
module Operator {
  import opened Types
  import opened Entities
  import opened ActivityOrder

  // ----- one submission, as a function of the batch

  /** A buffer in the middle of a submission, with what the submission has changed so far. */
  datatype Buffer = Buffer(activity: seq<ActivityItem>, terminalTimes: map<RunId, int>, changed: bool,
                           pending: set<EventId>)

  function WithoutId(s: seq<ActivityItem>, id: EventId): seq<ActivityItem> {
    if s == [] then []
    else WithoutId(s[..|s| - 1], id) + if s[|s| - 1].eventId == id then [] else [s[|s| - 1]]
  }

  function RecordedOne(b: Buffer, op: PersistOp): Buffer {
    if op.RecordEvent? && op.item.Some? then
      var item := op.item.value;
      b.(activity := WithoutId(b.activity, item.eventId) + [item], changed := true,
         pending := b.pending + {item.eventId})
    else b
  }

  /** The first pass over a batch: every recorded event replaces the earlier version of its identity. */
  function Recorded(b: Buffer, batch: seq<PersistOp>): Buffer {
    if batch == [] then b else RecordedOne(Recorded(b, batch[..|batch| - 1]), batch[|batch| - 1])
  }

  function Relabel(survivor: RunId, absorbed: RunId): ActivityItem -> ActivityItem {
    (x: ActivityItem) => if x.taskRunId == Some(absorbed) then x.(taskRunId := Some(survivor)) else x
  }

  function MapItems(f: ActivityItem -> ActivityItem, s: seq<ActivityItem>): seq<ActivityItem> {
    seq(|s|, i requires 0 <= i < |s| => f(s[i]))
  }

  function MentioningIds(s: seq<ActivityItem>, run: RunId): set<EventId> {
    set x | x in s && x.taskRunId == Some(run) :: x.eventId
  }

  /** The earlier of the two times moves to the survivor. */
  function MergedTimes(times: map<RunId, int>, survivor: RunId, absorbed: RunId): map<RunId, int> {
    var rest := times - {survivor, absorbed};
    if survivor in times && absorbed in times then rest[survivor := Min(times[survivor], times[absorbed])]
    else if survivor in times then rest[survivor := times[survivor]]
    else if absorbed in times then rest[survivor := times[absorbed]]
    else rest
  }

  function AppliedTime(times: map<RunId, int>, p: PersistTaskRun): map<RunId, int> {
    var run := p.taskRun.runId;
    if !p.taskRun.state.IsTerminal() then times - {run}
    else if run in times then times
    else times[run := p.finishedAtMs.UnwrapOr(p.updatedAtMs)]
  }

  function LinedOne(b: Buffer, op: PersistOp): Buffer {
    match op
    case MergeTaskRuns(s, a) =>
      Buffer(MapItems(Relabel(s, a), b.activity), MergedTimes(b.terminalTimes, s, a),
             b.changed || MentioningIds(b.activity, a) != {} || MergedTimes(b.terminalTimes, s, a) != b.terminalTimes,
             b.pending + MentioningIds(b.activity, a))
    case UpsertTaskRun(p) =>
      b.(terminalTimes := AppliedTime(b.terminalTimes, p),
         changed := b.changed || AppliedTime(b.terminalTimes, p) != b.terminalTimes)
    case PromoteTaskRunKey(p, _, _) =>
      b.(terminalTimes := AppliedTime(b.terminalTimes, p),
         changed := b.changed || AppliedTime(b.terminalTimes, p) != b.terminalTimes)
    case _ => b
  }

  /** The second pass: merges rewrite lineage and terminal times, upserts set or clear terminal times. */
  function Lined(b: Buffer, batch: seq<PersistOp>): Buffer {
    if batch == [] then b else LinedOne(Lined(b, batch[..|batch| - 1]), batch[|batch| - 1])
  }

  function Submitted(activity: seq<ActivityItem>, times: map<RunId, int>, batch: seq<PersistOp>): Buffer {
    Lined(Recorded(Buffer(activity, times, false, {}), batch), batch)
  }

  /** The activity after a submission, normalized when the submission changed something. */
  function Settled(b: Buffer): seq<ActivityItem> {
    if b.changed then Normalized(b.activity) else b.activity
  }

  method MergeTerminalTimes(times0: map<RunId, int>, survivor: RunId, absorbed: RunId)
    returns (times: map<RunId, int>, changed: bool)
    ensures times == MergedTimes(times0, survivor, absorbed)
    ensures changed <==> times != times0
  {
    var survivorTime := if survivor in times0 then Some(times0[survivor]) else None;
    times := times0 - {survivor};
    var absorbedTime := if absorbed in times then Some(times[absorbed]) else None;
    times := times - {absorbed};
    var merged := match (survivorTime, absorbedTime)
                  case (Some(l), Some(r)) => Some(Min(l, r))
                  case (Some(t), None) => Some(t)
                  case (None, r) => r;
    if merged.Some? { times := times[survivor := merged.value]; }
    changed := absorbedTime.Some? || survivorTime != merged;
    assert times0 - {survivor} - {absorbed} == times0 - {survivor, absorbed};
    if absorbedTime.Some? { assert absorbed in times0 && absorbed !in times; }
    if !changed && survivorTime.Some? { assert times0 == (times0 - {survivor})[survivor := times0[survivor]]; }
  }

  /** The record and its terminal time, with whether the table changed. */
  method ApplyTerminalTime(times0: map<RunId, int>, p: PersistTaskRun) returns (times: map<RunId, int>, changed: bool)
    ensures times == AppliedTime(times0, p) && (changed <==> times != times0)
  {
    var run := p.taskRun.runId;
    times, changed := times0, false;
    if p.taskRun.state.IsTerminal() {
      if run !in times0 {
        times := times0[run := p.finishedAtMs.UnwrapOr(p.updatedAtMs)];
        changed := true;
      }
    } else {
      changed := run in times0;
      times := times0 - {run};
      assert !changed ==> times == times0;
    }
  }

  method RewriteLineage(s: seq<ActivityItem>, survivor: RunId, absorbed: RunId)
    returns (r: seq<ActivityItem>, touched: set<EventId>)
    ensures r == MapItems(Relabel(survivor, absorbed), s) && touched == MentioningIds(s, absorbed)
  {
    r, touched := s, {};
    for i := 0 to |s|
      invariant |r| == |s|
      invariant forall j :: 0 <= j < |s| ==> r[j] == if j < i then Relabel(survivor, absorbed)(s[j]) else s[j]
      invariant touched == MentioningIds(s[..i], absorbed)
    {
      assert s[..i + 1] == s[..i] + [s[i]];
      if r[i].taskRunId == Some(absorbed) {
        r := r[i := r[i].(taskRunId := Some(survivor))];
        touched := touched + {s[i].eventId};
      }
    }
    assert s[..|s|] == s;
  }

  method RetainOthers(s: seq<ActivityItem>, id: EventId) returns (r: seq<ActivityItem>)
    ensures r == WithoutId(s, id)
  {
    r := [];
    for i := 0 to |s|
      invariant r == WithoutId(s[..i], id)
    {
      assert s[..i + 1][..i] == s[..i];
      if s[i].eventId != id { r := r + [s[i]]; }
    }
    assert s[..|s|] == s;
  }

  method ApplySubmissionTo(activity: seq<ActivityItem>, times: map<RunId, int>, batch: seq<PersistOp>)
    returns (b: Buffer)
    ensures b == Submitted(activity, times, batch)
  {
    b := Buffer(activity, times, false, {});
    for i := 0 to |batch|
      invariant b == Recorded(Buffer(activity, times, false, {}), batch[..i])
    {
      assert batch[..i + 1][..i] == batch[..i];
      if batch[i].RecordEvent? && batch[i].item.Some? {
        var item := batch[i].item.value;
        var retained := RetainOthers(b.activity, item.eventId);
        b := Buffer(retained + [item], b.terminalTimes, true, b.pending + {item.eventId});
      }
    }
    assert batch[..|batch|] == batch;
    ghost var recorded := b;
    for i := 0 to |batch|
      invariant b == Lined(recorded, batch[..i])
    {
      assert batch[..i + 1][..i] == batch[..i];
      match batch[i] {
        case MergeTaskRuns(s, a) =>
          var items, touched := RewriteLineage(b.activity, s, a);
          var merged, moved := MergeTerminalTimes(b.terminalTimes, s, a);
          b := Buffer(items, merged, b.changed || touched != {} || moved, b.pending + touched);
        case UpsertTaskRun(p) =>
          var applied, changed := ApplyTerminalTime(b.terminalTimes, p);
          b := b.(terminalTimes := applied, changed := b.changed || changed);
        case PromoteTaskRunKey(p, _, _) =>
          var applied, changed := ApplyTerminalTime(b.terminalTimes, p);
          b := b.(terminalTimes := applied, changed := b.changed || changed);
        case _ =>
      }
    }
    assert batch[..|batch|] == batch;
  }

  // ----- the projection object

  type DrainId = string

  datatype WriteOutcome = WroteDurable | CommittedButDegraded | NotCommitted | OutcomeUnknown | Skipped

  function DurabilityOf(outcome: WriteOutcome): Durability {
    match outcome
    case WroteDurable => Durable
    case CommittedButDegraded => Durable
    case NotCommitted => CurrentOnly
    case Skipped => CurrentOnly
    case OutcomeUnknown => DurabilityUnknown
  }

  function Reclassify(ids: set<EventId>, durability: Durability): ActivityItem -> ActivityItem {
    (x: ActivityItem) => if x.eventId in ids then x.(durability := durability) else x
  }

  method ReclassifyPending(s: seq<ActivityItem>, ids: set<EventId>, durability: Durability)
    returns (r: seq<ActivityItem>, changed: bool)
    ensures r == MapItems(Reclassify(ids, durability), s) && (changed <==> r != s)
  {
    r, changed := s, false;
    for i := 0 to |s|
      invariant |r| == |s|
      invariant forall j :: 0 <= j < |s| ==> r[j] == if j < i then Reclassify(ids, durability)(s[j]) else s[j]
      invariant changed <==> r != s
    {
      if r[i].eventId in ids && r[i].durability != durability {
        r := r[i := r[i].(durability := durability)];
        assert r[i] != s[i];
        changed := true;
      }
    }
  }

  datatype Snapshot = Snapshot(activity: seq<ActivityItem>, terminalTimes: map<RunId, int>)

  datatype FinalizedRun = FinalizedRun(runId: RunId, historyReady: bool)

  /** Identities of deferred drains, and of private items whose run is still blocked. */
  function HiddenIds(activity: seq<ActivityItem>, deferred: map<DrainId, set<EventId>>,
                     blocked: set<RunId>): set<EventId> {
    (set d, id | d in deferred && id in deferred[d] :: id)
    + (set x | x in activity && x.taskRunId.Some? && x.taskRunId.value in blocked :: x.eventId)
  }

  function Filtered(s: seq<ActivityItem>, ids: set<EventId>, keep: bool): seq<ActivityItem> {
    if s == [] then []
    else Filtered(s[..|s| - 1], ids, keep) + if (s[|s| - 1].eventId in ids) == keep then [s[|s| - 1]] else []
  }

  /** Blocked runs after the finalizations of a drain, in order. */
  function StillBlocked(blocked: set<RunId>, finalized: seq<FinalizedRun>): set<RunId> {
    if finalized == [] then blocked
    else
      var f, before := finalized[|finalized| - 1], StillBlocked(blocked, finalized[..|finalized| - 1]);
      if f.historyReady then before - {f.runId} else before + {f.runId}
  }

  function WithoutDrains(deferred: map<DrainId, set<EventId>>, completed: set<DrainId>): map<DrainId, set<EventId>> {
    deferred - completed
  }

  /** The published activity: visible private items, and the previously published version of hidden ones. */
  function Accumulated(activity: seq<ActivityItem>, published: seq<ActivityItem>,
                       hidden: set<EventId>): seq<ActivityItem> {
    Normalized(Filtered(activity, hidden, false) + Filtered(published, hidden, true))
  }

  function FinishTimes(runs: map<RunId, TaskRun>): map<RunId, int> {
    map r | r in runs && runs[r].finishedAtMs.Some? :: runs[r].finishedAtMs.value
  }

  function Retain(deferred: map<DrainId, set<EventId>>, ids: set<EventId>): map<DrainId, set<EventId>> {
    map d | d in deferred :: deferred[d] * ids
  }

  method FilterItems(s: seq<ActivityItem>, ids: set<EventId>, keep: bool) returns (r: seq<ActivityItem>)
    ensures r == Filtered(s, ids, keep)
  {
    r := [];
    for i := 0 to |s|
      invariant r == Filtered(s[..i], ids, keep)
    {
      assert s[..i + 1][..i] == s[..i];
      if (s[i].eventId in ids) == keep { r := r + [s[i]]; }
    }
    assert s[..|s|] == s;
  }

  method Accumulate(activity: seq<ActivityItem>, published: seq<ActivityItem>, hidden: set<EventId>)
    returns (next: seq<ActivityItem>)
    ensures next == Accumulated(activity, published, hidden) && Normal(next)
  {
    var visible := FilterItems(activity, hidden, false);
    var kept := FilterItems(published, hidden, true);
    NormalizedIsNormal(visible + kept);
    next := NormalizeActivity(visible + kept);
  }

  method FinalizeRuns(blocked0: set<RunId>, finalized: seq<FinalizedRun>) returns (blocked: set<RunId>)
    ensures blocked == StillBlocked(blocked0, finalized)
  {
    blocked := blocked0;
    for i := 0 to |finalized|
      invariant blocked == StillBlocked(blocked0, finalized[..i])
    {
      assert finalized[..i + 1][..i] == finalized[..i];
      var run := finalized[i].runId;
      blocked := if finalized[i].historyReady then blocked - {run} else blocked + {run};
    }
    assert finalized[..|finalized|] == finalized;
  }

  // ----- what the operations keep

  /** The function changes neither identity nor any field the order looks at. */
  ghost predicate KeepsOrder(f: ActivityItem -> ActivityItem) {
    forall x :: var y := f(x);
      y.eventId == x.eventId && y.eventTimestampMs == x.eventTimestampMs && y.seenAtMs == x.seenAtMs
          && y.ingestSeq == x.ingestSeq
  }

  lemma RelabelKeepsOrder(survivor: RunId, absorbed: RunId)
    ensures KeepsOrder(Relabel(survivor, absorbed))
  {
  }

  lemma ReclassifyKeepsOrder(ids: set<EventId>, durability: Durability)
    ensures KeepsOrder(Reclassify(ids, durability))
  {
  }

  lemma MapKeepsOrder(f: ActivityItem -> ActivityItem, s: seq<ActivityItem>)
    requires KeepsOrder(f)
    ensures Sorted(s) ==> Sorted(MapItems(f, s))
    ensures DistinctIds(s) ==> DistinctIds(MapItems(f, s))
  {
  }

  lemma {:induction false} WithoutIdItems(s: seq<ActivityItem>, id: EventId)
    ensures forall x :: x in WithoutId(s, id) <==> x in s && x.eventId != id
    ensures DistinctIds(s) ==> DistinctIds(WithoutId(s, id))
  {
    if s != [] {
      var init, last := s[..|s| - 1], s[|s| - 1];
      WithoutIdItems(init, id);
      assert s == init + [last];
      if DistinctIds(s) && last.eventId != id {
        forall j | 0 <= j < |WithoutId(init, id)| ensures WithoutId(init, id)[j].eventId != last.eventId {
          assert WithoutId(init, id)[j] in init;
        }
      }
    }
  }

  lemma {:induction false} RecordedDistinct(b: Buffer, batch: seq<PersistOp>)
    requires DistinctIds(b.activity)
    ensures DistinctIds(Recorded(b, batch).activity)
  {
    if batch != [] {
      var before, op := Recorded(b, batch[..|batch| - 1]), batch[|batch| - 1];
      RecordedDistinct(b, batch[..|batch| - 1]);
      if op.RecordEvent? && op.item.Some? {
        var rest := WithoutId(before.activity, op.item.value.eventId);
        WithoutIdItems(before.activity, op.item.value.eventId);
        forall j | 0 <= j < |rest| ensures rest[j].eventId != op.item.value.eventId { assert rest[j] in rest; }
      }
    }
  }

  lemma {:induction false} LinedDistinct(b: Buffer, batch: seq<PersistOp>)
    requires DistinctIds(b.activity)
    ensures DistinctIds(Lined(b, batch).activity)
  {
    if batch != [] {
      LinedDistinct(b, batch[..|batch| - 1]);
      var op := batch[|batch| - 1];
      if op.MergeTaskRuns? {
        RelabelKeepsOrder(op.survivor, op.absorbed);
        MapKeepsOrder(Relabel(op.survivor, op.absorbed), Lined(b, batch[..|batch| - 1]).activity);
      }
    }
  }

  /** A pass that reports no change has changed neither the items nor the terminal times. */
  lemma {:induction false} UnchangedRecorded(b: Buffer, batch: seq<PersistOp>)
    ensures b.changed ==> Recorded(b, batch).changed
    ensures !Recorded(b, batch).changed ==> Recorded(b, batch) == b
    ensures Recorded(b, batch).terminalTimes == b.terminalTimes
  {
    if batch != [] { UnchangedRecorded(b, batch[..|batch| - 1]); }
  }

  lemma UntouchedLineage(s: seq<ActivityItem>, survivor: RunId, absorbed: RunId)
    requires MentioningIds(s, absorbed) == {}
    ensures MapItems(Relabel(survivor, absorbed), s) == s
  {
    forall x | x in s ensures x.taskRunId != Some(absorbed) {
      assert x.eventId !in MentioningIds(s, absorbed);
    }
  }

  lemma {:induction false} UnchangedLined(b: Buffer, batch: seq<PersistOp>)
    ensures b.changed ==> Lined(b, batch).changed
    ensures !Lined(b, batch).changed
            ==> Lined(b, batch).activity == b.activity && Lined(b, batch).terminalTimes == b.terminalTimes
  {
    if batch != [] {
      UnchangedLined(b, batch[..|batch| - 1]);
      var before, op := Lined(b, batch[..|batch| - 1]), batch[|batch| - 1];
      if op.MergeTaskRuns? && !Lined(b, batch).changed { UntouchedLineage(before.activity, op.survivor, op.absorbed); }
    }
  }

  lemma ChangedIsSound(activity: seq<ActivityItem>, times: map<RunId, int>, batch: seq<PersistOp>)
    ensures var b := Submitted(activity, times, batch);
            !b.changed ==> b.activity == activity && b.terminalTimes == times
  {
    var start := Buffer(activity, times, false, {});
    UnchangedRecorded(start, batch);
    UnchangedLined(Recorded(start, batch), batch);
  }

  lemma SettledIsNormal(activity: seq<ActivityItem>, times: map<RunId, int>, batch: seq<PersistOp>)
    requires Normal(activity)
    ensures Normal(Settled(Submitted(activity, times, batch)))
  {
    var start := Buffer(activity, times, false, {});
    ChangedIsSound(activity, times, batch);
    NormalizedIsNormal(Submitted(activity, times, batch).activity);
  }

  lemma {:induction false} FilteredItems(s: seq<ActivityItem>, ids: set<EventId>, keep: bool)
    ensures forall x :: x in Filtered(s, ids, keep) <==> x in s && (x.eventId in ids) == keep
    ensures DistinctIds(s) ==> DistinctIds(Filtered(s, ids, keep))
  {
    if s != [] {
      var init, last := s[..|s| - 1], s[|s| - 1];
      FilteredItems(init, ids, keep);
      assert s == init + [last];
      if DistinctIds(s) {
        forall j | 0 <= j < |Filtered(init, ids, keep)| ensures Filtered(init, ids, keep)[j].eventId != last.eventId {
          assert Filtered(init, ids, keep)[j] in init;
        }
      }
    }
  }

  lemma AccumulatedIsDistinct(activity: seq<ActivityItem>, published: seq<ActivityItem>, hidden: set<EventId>)
    requires DistinctIds(activity) && DistinctIds(published)
    ensures DistinctIds(Filtered(activity, hidden, false) + Filtered(published, hidden, true))
  {
    var visible, kept := Filtered(activity, hidden, false), Filtered(published, hidden, true);
    FilteredItems(activity, hidden, false);
    FilteredItems(published, hidden, true);
    forall i, j | 0 <= i < |visible| && 0 <= j < |kept| ensures visible[i].eventId != kept[j].eventId {
      assert visible[i] in visible && kept[j] in kept;
    }
  }

  // ----- the state as a value, and what each operation makes of it

  /** One buffer with its terminal times and the identities whose durability is still open. */
  datatype Projection = Projection(
    activity: seq<ActivityItem>,
    terminalTimes: map<RunId, int>,
    pending: set<EventId>,
    deferredPending: set<EventId>)

  datatype Projections = Projections(
    own: Projection,
    shown: Projection,
    deferred: map<DrainId, set<EventId>>,
    blockedRuns: set<RunId>)

  function LiveSubmitted(p: Projection, batch: seq<PersistOp>): Projection {
    var b := Submitted(p.activity, p.terminalTimes, batch);
    Projection(Settled(b), b.terminalTimes, b.pending, p.deferredPending)
  }

  function LiveCompleted(p: Projection, outcome: WriteOutcome): Projection {
    p.(activity := MapItems(Reclassify(p.pending, DurabilityOf(outcome)), p.activity), pending := {})
  }

  function HistoricallySubmitted(p: Projection, batch: seq<PersistOp>): Projection {
    var b := Submitted(p.activity, p.terminalTimes, batch);
    Projection(Settled(b), b.terminalTimes, p.pending, b.pending)
  }

  predicate Committed(outcome: WriteOutcome) { outcome.WroteDurable? || outcome.CommittedButDegraded? }

  /** A failed write keeps the identities for the retry. */
  function HistoricallyCompleted(p: Projection, outcome: WriteOutcome): Projection {
    p.(activity := MapItems(Reclassify(p.deferredPending, DurabilityOf(outcome)), p.activity),
       deferredPending := if Committed(outcome) then {} else p.deferredPending)
  }

  /**
   * The drain's identities grow by those of the batch; if it changed the buffer, only identities still held stay
   * deferred.
   */
  function DeferredAfter(deferred: map<DrainId, set<EventId>>, drain: DrainId, b: Buffer): map<DrainId, set<EventId>> {
    var more := deferred[drain := (if drain in deferred then deferred[drain] else {}) + b.pending];
    if b.changed then Retain(more, Ids(Settled(b))) else more
  }

  function Published(s: Projections, completed: set<DrainId>, finalized: seq<FinalizedRun>,
                     runs: map<RunId, TaskRun>): Projections {
    var deferred, blocked := WithoutDrains(s.deferred, completed), StillBlocked(s.blockedRuns, finalized);
    var hidden := HiddenIds(s.own.activity, deferred, blocked);
    Projections(
      s.own,
      Projection(Accumulated(s.own.activity, s.shown.activity, hidden), FinishTimes(runs), {}, s.shown.deferredPending),
      deferred,
      blocked)
  }

  class OperatorProjection {
    var activity: seq<ActivityItem>
    var terminalTimes: map<RunId, int>
    var pending: set<EventId>
    var deferredPending: set<EventId>
    var deferred: map<DrainId, set<EventId>>
    var blockedRuns: set<RunId>
    var publishedActivity: seq<ActivityItem>
    var publishedTerminalTimes: map<RunId, int>
    var publishedPending: set<EventId>
    /** What the receivers of the watch channel see. */
    var watched: Snapshot

    function Own(): Projection
      reads this
    {
      Projection(activity, terminalTimes, pending, deferredPending)
    }

    function Shown(): Projection
      reads this
    {
      Projection(publishedActivity, publishedTerminalTimes, publishedPending, {})
    }

    function State(): Projections
      reads this
    {
      Projections(Own(), Shown(), deferred, blockedRuns)
    }

    /** Both buffers are normalized, and receivers always see exactly the published state. */
    ghost predicate Valid()
      reads this
    {
      && Normal(activity) && Normal(publishedActivity)
      && watched == Snapshot(publishedActivity, publishedTerminalTimes)
    }

    constructor (restoredActivity: seq<ActivityItem>, restoredTimes: map<RunId, int>)
      ensures Valid()
      ensures var p := Projection(Normalized(restoredActivity), restoredTimes, {}, {});
              State() == Projections(p, p, map[], {})
    {
      var normalized := NormalizeActivity(restoredActivity);
      activity, publishedActivity := normalized, normalized;
      terminalTimes, publishedTerminalTimes := restoredTimes, restoredTimes;
      pending, deferredPending, publishedPending := {}, {}, {};
      deferred, blockedRuns := map[], {};
      watched := Snapshot(normalized, restoredTimes);
      NormalizedIsNormal(restoredActivity);
    }

    method Publish()
      modifies `watched
      ensures watched == Snapshot(publishedActivity, publishedTerminalTimes)
    {
      var next := Snapshot(publishedActivity, publishedTerminalTimes);
      if watched != next { watched := next; }
    }

    /** A live submission is applied to both buffers and published when it changed the published one. */
    method ApplySubmission(batch: seq<PersistOp>)
      requires Valid()
      modifies this
      ensures Valid()
      ensures State() == old(State()).(own := LiveSubmitted(old(Own()), batch),
                                       shown := LiveSubmitted(old(Shown()), batch))
    {
      SubmitOwn(batch);
      SubmitShown(batch);
    }

    method SubmitOwn(batch: seq<PersistOp>)
      requires Normal(activity)
      modifies `activity, `terminalTimes, `pending
      ensures Normal(activity) && Own() == LiveSubmitted(old(Own()), batch)
    {
      var b := ApplySubmissionTo(activity, terminalTimes, batch);
      SettledIsNormal(activity, terminalTimes, batch);
      activity, terminalTimes, pending := b.activity, b.terminalTimes, b.pending;
      if b.changed { activity := NormalizeActivity(activity); }
    }

    method SubmitShown(batch: seq<PersistOp>)
      requires Valid()
      modifies `publishedActivity, `publishedTerminalTimes, `publishedPending, `watched
      ensures Valid() && Shown() == LiveSubmitted(old(Shown()), batch)
    {
      var b := ApplySubmissionTo(publishedActivity, publishedTerminalTimes, batch);
      SettledIsNormal(publishedActivity, publishedTerminalTimes, batch);
      ChangedIsSound(publishedActivity, publishedTerminalTimes, batch);
      publishedActivity, publishedTerminalTimes, publishedPending := b.activity, b.terminalTimes, b.pending;
      if b.changed {
        publishedActivity := NormalizeActivity(publishedActivity);
        Publish();
      }
    }

    /** A historical submission touches private state only. */
    method ApplySubmissionWithoutPublishing(drain: DrainId, batch: seq<PersistOp>)
      requires Valid()
      modifies `activity, `terminalTimes, `deferredPending, `deferred
      ensures Valid()
      ensures State() == old(State()).(
                own := HistoricallySubmitted(old(Own()), batch),
                deferred := DeferredAfter(old(deferred), drain, Submitted(old(activity), old(terminalTimes), batch)))
    {
      var b := ApplySubmissionTo(activity, terminalTimes, batch);
      SettledIsNormal(activity, terminalTimes, batch);
      activity, terminalTimes, deferredPending := b.activity, b.terminalTimes, b.pending;
      deferred := deferred[drain := (if drain in deferred then deferred[drain] else {}) + b.pending];
      if b.changed {
        activity := NormalizeActivity(activity);
        deferred := Retain(deferred, Ids(activity));
      }
    }

    method CompleteSubmission(outcome: WriteOutcome)
      requires Valid()
      modifies `activity, `publishedActivity, `pending, `publishedPending, `watched
      ensures Valid()
      ensures State() == old(State()).(own := LiveCompleted(old(Own()), outcome),
                                       shown := LiveCompleted(old(Shown()), outcome))
    {
      var durability := DurabilityOf(outcome);
      ReclassifyKeepsOrder(pending, durability);
      ReclassifyKeepsOrder(publishedPending, durability);
      MapKeepsOrder(Reclassify(pending, durability), activity);
      MapKeepsOrder(Reclassify(publishedPending, durability), publishedActivity);
      var own, _ := ReclassifyPending(activity, pending, durability);
      var shown, changed := ReclassifyPending(publishedActivity, publishedPending, durability);
      activity, publishedActivity := own, shown;
      pending, publishedPending := {}, {};
      if changed { Publish(); }
    }

    method CompleteSubmissionWithoutPublishing(outcome: WriteOutcome)
      requires Valid()
      modifies `activity, `deferredPending
      ensures Valid()
      ensures State() == old(State()).(own := HistoricallyCompleted(old(Own()), outcome))
    {
      var durability := DurabilityOf(outcome);
      ReclassifyKeepsOrder(deferredPending, durability);
      MapKeepsOrder(Reclassify(deferredPending, durability), activity);
      var own, _ := ReclassifyPending(activity, deferredPending, durability);
      activity := own;
      if Committed(outcome) { deferredPending := {}; }
    }

    method PublishAccumulated(completed: set<DrainId>, finalized: seq<FinalizedRun>, publishedRuns: map<RunId, TaskRun>)
      requires Valid()
      modifies this
      ensures Valid()
      ensures State() == Published(old(State()), completed, finalized, publishedRuns)
    {
      deferred := WithoutDrains(deferred, completed);
      blockedRuns := FinalizeRuns(blockedRuns, finalized);
      ShowAccumulated(HiddenIds(activity, deferred, blockedRuns), FinishTimes(publishedRuns));
    }

    method ShowAccumulated(hidden: set<EventId>, finishTimes: map<RunId, int>)
      requires Normal(activity) && Normal(publishedActivity)
      modifies `publishedActivity, `publishedTerminalTimes, `publishedPending, `watched
      ensures Valid()
      ensures Shown() == Projection(Accumulated(activity, old(publishedActivity), hidden), finishTimes, {}, {})
    {
      publishedActivity := Accumulate(activity, publishedActivity, hidden);
      publishedTerminalTimes := finishTimes;
      publishedPending := {};
      Publish();
    }
  }
}
