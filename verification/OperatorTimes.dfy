/** Which runs have a terminal time after a batch, and which time it is. */
module OperatorTimes {
  import opened Types
  import opened Entities
  import opened Operator
  import opened OperatorLineage

  function TimeAt(times: map<RunId, int>, run: RunId): Option<int> {
    if run in times then Some(times[run]) else None
  }

  /** The earlier of the times that are there. */
  function Earlier(a: Option<int>, b: Option<int>): Option<int> {
    if a.None? then b else if b.None? || a.value <= b.value then a else b
  }

  /** A run that is over keeps its first time or gets its finish, else its update; a reopened run loses its time. */
  function UpsertedTime(p: PersistTaskRun, times: map<RunId, int>, run: RunId): Option<int> {
    if run != p.taskRun.runId then TimeAt(times, run)
    else if p.taskRun.state !in {Completed, Failed, Cancelled, EndedUnknown} then None
    else if run in times then Some(times[run])
    else if p.finishedAtMs.Some? then p.finishedAtMs
    else Some(p.updatedAtMs)
  }

  /** The time of one run after an operation, from the times before it. */
  function TimeNext(op: PersistOp, times: map<RunId, int>, run: RunId): Option<int> {
    match op
    case MergeTaskRuns(survivor, absorbed) =>
      if run == survivor then Earlier(TimeAt(times, survivor), TimeAt(times, absorbed))
      else if run == absorbed then None
      else TimeAt(times, run)
    case UpsertTaskRun(p) => UpsertedTime(p, times, run)
    case PromoteTaskRunKey(p, _, _) => UpsertedTime(p, times, run)
    case RecordEvent(_) => TimeAt(times, run)
    case RowOnly => TimeAt(times, run)
  }

  /** Every operation of a batch sets every run's time in this way. */
  lemma OperationSetsTimes(b: Buffer, op: PersistOp, run: RunId)
    ensures TimeAt(LinedOne(b, op).terminalTimes, run) == TimeNext(op, b.terminalTimes, run)
  {
  }

  // ----- merges alone

  predicate MergesOnly(batch: seq<PersistOp>) {
    forall op :: op in batch ==> !op.UpsertTaskRun? && !op.PromoteTaskRunKey?
  }

  /** `time` is the least time of all runs that have become `run`, and none if none of them has one. */
  ghost predicate IsEarliest(times: map<RunId, int>, batch: seq<PersistOp>, run: RunId, time: Option<int>) {
    && (forall q :: q in times && Became(batch, Some(q)) == Some(run) ==> time.Some? && time.value <= times[q])
    && (time.Some? ==> exists q :: q in times && Became(batch, Some(q)) == Some(run) && times[q] == time.value)
  }

  lemma BecameRun(batch: seq<PersistOp>, q: RunId)
    ensures Became(batch, Some(q)).Some?
  {
    if batch != [] { BecameRun(batch[..|batch| - 1], q); }
  }

  lemma MergedEarliest(times: map<RunId, int>, init: seq<PersistOp>, batch: seq<PersistOp>, s: RunId, a: RunId,
                       x: Option<int>, y: Option<int>)
    requires batch == init + [MergeTaskRuns(s, a)]
    requires IsEarliest(times, init, s, x) && IsEarliest(times, init, a, y)
    ensures IsEarliest(times, batch, s, Earlier(x, y))
  {
    assert batch[..|batch| - 1] == init;
    forall q ensures Became(batch, Some(q)) == Some(s)
                     <==> Became(init, Some(q)) == Some(s) || Became(init, Some(q)) == Some(a) {}
  }

  lemma OtherEarliest(times: map<RunId, int>, init: seq<PersistOp>, batch: seq<PersistOp>, s: RunId, a: RunId,
                      run: RunId, x: Option<int>)
    requires batch == init + [MergeTaskRuns(s, a)] && IsEarliest(times, init, run, x) && run != s
    ensures IsEarliest(times, batch, run, if run == a then None else x)
  {
    assert batch[..|batch| - 1] == init;
    forall q ensures Became(batch, Some(q)) == Some(run) <==> run != a && Became(init, Some(q)) == Some(run) {}
  }

  /** After merges a run has the earliest time of all the runs merged into it. */
  lemma {:induction false} MergedTimesAreEarliest(b: Buffer, batch: seq<PersistOp>, run: RunId)
    requires MergesOnly(batch)
    ensures IsEarliest(b.terminalTimes, batch, run, TimeAt(Lined(b, batch).terminalTimes, run))
    decreases |batch|
  {
    if batch != [] {
      var init, op := batch[..|batch| - 1], batch[|batch| - 1];
      assert op in batch && batch == init + [op] && MergesOnly(init);
      MergedTimesAreEarliest(b, init, run);
      OperationSetsTimes(Lined(b, init), op, run);
      if op.MergeTaskRuns? {
        MergedTimesAreEarliest(b, init, op.absorbed);
        var before := Lined(b, init).terminalTimes;
        if run == op.survivor {
          MergedEarliest(b.terminalTimes, init, batch, op.survivor, op.absorbed, TimeAt(before, run),
                         TimeAt(before, op.absorbed));
        } else {
          OtherEarliest(b.terminalTimes, init, batch, op.survivor, op.absorbed, run, TimeAt(before, run));
        }
      } else {
        assert forall r :: Became(batch, r) == Became(init, r);
      }
    }
  }

  // ----- what a submission reports as changed

  /** The operation changes some run's time. */
  ghost predicate ChangesTimes(op: PersistOp, times: map<RunId, int>) {
    exists run :: TimeNext(op, times, run) != TimeAt(times, run)
  }

  lemma SameTimes(a: map<RunId, int>, b: map<RunId, int>)
    ensures a == b <==> forall run :: TimeAt(a, run) == TimeAt(b, run)
  {
    if forall run :: TimeAt(a, run) == TimeAt(b, run) {
      forall run ensures run in a <==> run in b {
        assert TimeAt(a, run) == TimeAt(b, run);
      }
      forall run | run in a ensures a[run] == b[run] {
        assert TimeAt(a, run) == TimeAt(b, run);
      }
    }
  }

  /** The operation touches an event or changes some time. */
  ghost predicate Disturbs(b: Buffer, op: PersistOp) {
    || ChangesTimes(op, b.terminalTimes)
    || (op.MergeTaskRuns? && exists x :: x in b.activity && x.taskRunId == Some(op.absorbed))
  }

  lemma OperationChanges(b: Buffer, op: PersistOp)
    ensures LinedOne(b, op).changed <==> b.changed || Disturbs(b, op)
  {
    var after := LinedOne(b, op);
    forall run ensures TimeAt(after.terminalTimes, run) == TimeNext(op, b.terminalTimes, run) {
      OperationSetsTimes(b, op, run);
    }
    SameTimes(after.terminalTimes, b.terminalTimes);
    if op.MergeTaskRuns? {
      if x :| x in b.activity && x.taskRunId == Some(op.absorbed) {
        assert x.eventId in MentioningIds(b.activity, op.absorbed);
      }
    }
  }

  /** The operation at `i` disturbs what the pass has made of the buffer up to it. */
  ghost predicate DisturbsAt(b: Buffer, batch: seq<PersistOp>, i: nat) {
    i < |batch| && Disturbs(Lined(b, batch[..i]), batch[i])
  }

  lemma DisturbsInPrefix(b: Buffer, batch: seq<PersistOp>, i: nat)
    requires i < |batch| - 1
    ensures DisturbsAt(b, batch, i) <==> DisturbsAt(b, batch[..|batch| - 1], i)
  {
    assert batch[..|batch| - 1][..i] == batch[..i];
  }

  /** The pass over merges and upserts reports a change exactly when one of its operations disturbs something. */
  lemma {:induction false} LinedChanges(b: Buffer, batch: seq<PersistOp>)
    ensures Lined(b, batch).changed <==> b.changed || exists i :: DisturbsAt(b, batch, i)
    decreases |batch|
  {
    if batch != [] {
      var n := |batch| - 1;
      LinedChanges(b, batch[..n]);
      OperationChanges(Lined(b, batch[..n]), batch[n]);
      assert DisturbsAt(b, batch, n) <==> Disturbs(Lined(b, batch[..n]), batch[n]);
      if i :| DisturbsAt(b, batch[..n], i) { DisturbsInPrefix(b, batch, i); }
      if i :| DisturbsAt(b, batch, i) && i != n { DisturbsInPrefix(b, batch, i); }
    }
  }

  lemma {:induction false} RecordedChanges(b: Buffer, batch: seq<PersistOp>)
    ensures Recorded(b, batch).changed
            <==> b.changed || exists i :: 0 <= i < |batch| && batch[i].RecordEvent? && batch[i].item.Some?
    decreases |batch|
  {
    if batch != [] { RecordedChanges(b, batch[..|batch| - 1]); }
  }

  /** A submission reports a change exactly when it records an event or one of its operations disturbs something. */
  lemma SubmissionChanges(activity: seq<ActivityItem>, times: map<RunId, int>, batch: seq<PersistOp>)
    ensures var recorded := Recorded(Buffer(activity, times, false, {}), batch);
            Submitted(activity, times, batch).changed
            <==> (exists i :: 0 <= i < |batch| && batch[i].RecordEvent? && batch[i].item.Some?)
                 || (exists i :: DisturbsAt(recorded, batch, i))
  {
    RecordedChanges(Buffer(activity, times, false, {}), batch);
    LinedChanges(Recorded(Buffer(activity, times, false, {}), batch), batch);
  }
}
