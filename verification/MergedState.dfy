/** What every run of the system holds in the end, in terms of the runs that were merged into it. */
module MergedState {
  import opened Types
  import opened Contraction
  import opened Entities
  import opened Identity
  import opened IdentityProofs
  import opened Folds
  import opened Sums
  import opened Conservation

  // ----- the runs merged into one

  ghost predicate Merges(sys: System, op: Op) {
    op.ApplyPlan? && op.plan.Merge? && MergeAccepted(sys.model, op.plan.survivor, op.plan.absorbed)
  }

  /** The runs whose state has ended up in `r`, survivors before what they absorbed; none if `r` was absorbed itself. */
  ghost function Parts(sys: System, ops: seq<Op>, r: RunId): seq<RunId> {
    if ops == [] then [r]
    else
      var init, op := ops[..|ops| - 1], ops[|ops| - 1];
      if !Merges(Run(sys, init), op) then Parts(sys, init, r)
      else if r == op.plan.survivor then Parts(sys, init, r) + Parts(sys, init, op.plan.absorbed)
      else if r == op.plan.absorbed then []
      else Parts(sys, init, r)
  }

  lemma {:induction false} RunLast(sys: System, ops: seq<Op>)
    requires ops != [] && EnabledThroughout(sys, ops)
    ensures var init, op := ops[..|ops| - 1], ops[|ops| - 1];
            && Run(sys, ops) == Next(Run(sys, init), op)
            && EnabledThroughout(sys, init) && Enabled(Run(sys, init), op)
    decreases |ops|
  {
    if |ops| == 1 {
      assert ops[..0] == [] && ops[1..] == [];
    } else {
      RunLast(Next(sys, ops[0]), ops[1..]);
      assert ops[1..][..|ops| - 2] == ops[..|ops| - 1][1..];
    }
  }

  /** A run without parts has been absorbed. */
  lemma {:induction false} PartlessIsRetired(sys: System, ops: seq<Op>, r: RunId)
    requires Good(sys) && EnabledThroughout(sys, ops) && Parts(sys, ops, r) == []
    ensures r in Run(sys, ops).retired
  {
    if ops != [] {
      var init, op := ops[..|ops| - 1], ops[|ops| - 1];
      RunLast(sys, ops);
      var before := Run(sys, init);
      if !(Merges(before, op) && r == op.plan.absorbed) { PartlessIsRetired(sys, init, r); }
    }
  }

  lemma LiveHasParts(sys: System, ops: seq<Op>, r: RunId)
    requires Good(sys) && EnabledThroughout(sys, ops) && r in Run(sys, ops).model.taskRuns
    ensures Parts(sys, ops, r) != []
  {
    if Parts(sys, ops, r) == [] {
      PartlessIsRetired(sys, ops, r);
      RunsStayGood(sys, ops);
    }
  }

  lemma {:induction false} FollowLast(sys: System, ops: seq<Op>, x: RunId)
    requires ops != []
    ensures var init, op := ops[..|ops| - 1], ops[|ops| - 1];
            Follow(sys, ops, x) == FollowOne(Run(sys, init), op, Follow(sys, init, x))
    decreases |ops|
  {
    if |ops| == 1 {
      assert ops[..0] == [] && ops[1..] == [];
    } else {
      FollowLast(Next(sys, ops[0]), ops[1..], FollowOne(sys, ops[0], x));
      assert ops[1..][..|ops| - 2] == ops[..|ops| - 1][1..];
    }
  }

  /** The parts of a run are exactly the runs that lead to it along the chain of merges. */
  lemma {:induction false} PartsFollow(sys: System, ops: seq<Op>, r: RunId, x: RunId)
    requires EnabledThroughout(sys, ops)
    ensures x in Parts(sys, ops, r) <==> Follow(sys, ops, x) == r
  {
    if ops != [] {
      var init, op := ops[..|ops| - 1], ops[|ops| - 1];
      RunLast(sys, ops);
      FollowLast(sys, ops, x);
      PartsFollow(sys, init, r, x);
      if op.ApplyPlan? && op.plan.Merge? { PartsFollow(sys, init, op.plan.absorbed, x); }
    }
  }

  // ----- tables read at several runs

  /** The entries of the runs that have one, in order. */
  ghost function Present<T>(table: map<RunId, T>, ids: seq<RunId>): seq<T> {
    if ids == [] then []
    else
      var n := |ids| - 1;
      Present(table, ids[..n]) + if ids[n] in table then [table[ids[n]]] else []
  }

  lemma {:induction false} PresentBoth<T>(table: map<RunId, T>, a: seq<RunId>, b: seq<RunId>)
    ensures Present(table, a + b) == Present(table, a) + Present(table, b)
  {
    if b == [] {
      assert a + b == a;
    } else {
      assert (a + b)[..|a + b| - 1] == a + b[..|b| - 1];
      PresentBoth(table, a, b[..|b| - 1]);
    }
  }

  lemma PresentOne<T>(table: map<RunId, T>, r: RunId)
    ensures Present(table, [r]) == if r in table then [table[r]] else []
  {
    assert [r][..0] == [];
    assert Present(table, [r]) == Present(table, [r][..0]) + if r in table then [table[r]] else [];
  }

  ghost function HistoriesOf(m: Model, ids: seq<RunId>): seq<RunHistory> {
    seq(|ids|, i requires 0 <= i < |ids| => HistoryAt(m.history, ids[i]))
  }

  ghost function KindIn(m: Model): RunId -> Option<string> {
    (r: RunId) => if r in m.runKinds then Some(m.runKinds[r]) else None
  }

  // ----- what a run holds

  ghost predicate TelemetryIs(start: map<RunId, Telemetry>, now: map<RunId, Telemetry>, r: RunId, ids: seq<RunId>) {
    var parts := Present(start, ids);
    (r in now <==> parts != []) && (r in now ==> CombinesTelemetry(now[r], parts))
  }

  ghost predicate TotalsAre(start: map<RunId, RateTotals>, now: map<RunId, RateTotals>, r: RunId, ids: seq<RunId>) {
    var parts := Present(start, ids);
    (r in now <==> parts != []) && (r in now ==> CombinesTotals(now[r], parts))
  }

  ghost predicate HistoryIs(start: Model, m: Model, r: RunId, ids: seq<RunId>) {
    if ids == [] then r !in m.history else CombinesHistory(HistoryAt(m.history, r), HistoriesOf(start, ids))
  }

  /** A cursor survives only where nothing was merged. */
  ghost predicate CursorIs(start: Model, m: Model, r: RunId, ids: seq<RunId>) {
    && (r in m.rateCursors <==> ids == [r] && r in start.rateCursors)
    && (r in m.rateCursors ==> m.rateCursors[r] == start.rateCursors[r])
  }

  ghost predicate Holds(start: Model, m: Model, r: RunId, ids: seq<RunId>) {
    && TelemetryIs(start.telemetry, m.telemetry, r, ids) && TotalsAre(start.rateTotals, m.rateTotals, r, ids)
    && HistoryIs(start, m, r, ids) && CursorIs(start, m, r, ids) && IsFirst(KindIn(m)(r), ids, KindIn(start))
  }

  /** All counters and durations are machine words. */
  ghost predicate Words(m: Model) {
    && (forall r :: r in m.telemetry ==> Fits(m.telemetry[r]))
    && (forall r :: r in m.rateTotals ==> m.rateTotals[r].workingMs <= I64_MAX)
  }

  lemma HoldsAtFirst(m: Model, r: RunId)
    requires Words(m)
    ensures Holds(m, m, r, [r])
  {
    PresentOne(m.telemetry, r);
    PresentOne(m.rateTotals, r);
    if r in m.telemetry { OnePart(m.telemetry[r]); }
    if r in m.rateTotals { OneTotals(m.rateTotals[r]); }
    OneHistory(HistoryAt(m.history, r));
    assert HistoriesOf(m, [r]) == [HistoryAt(m.history, r)];
    FirstOfOne(r, KindIn(m));
  }

  // ----- one merge

  /** The tables beside the runs after a merge of `s` and `a`. */
  ghost predicate FoldedTables(m: Model, s: RunId, a: RunId, after: Model) {
    && after.telemetry == MergedTelemetry(m.telemetry, s, a)
    && after.rateTotals == Drop(MergedTotals(m.rateTotals, s, a), a)
    && after.runKinds == MergedKinds(m.runKinds, s, a)
    && after.rateCursors == Drop(Drop(m.rateCursors, s), a)
    && HistoryAt(after.history, s) == FoldedHistory(HistoryAt(m.history, s), HistoryAt(m.history, a))
    && a !in after.history
    && forall r :: r != s && r != a
         ==> HistoryAt(after.history, r) == HistoryAt(m.history, r) && (r in after.history <==> r in m.history)
  }

  ghost predicate SameTables(a: Model, b: Model) {
    && a.telemetry == b.telemetry && a.rateTotals == b.rateTotals && a.runKinds == b.runKinds
    && a.rateCursors == b.rateCursors
  }

  lemma InsertKeepsTables(m: Model, t: TaskRun)
    ensures SameTables(m, WithTaskRun(m, t))
    ensures forall r :: HistoryAt(WithTaskRun(m, t).history, r) == HistoryAt(m.history, r)
    ensures forall r :: r in WithTaskRun(m, t).history <==> r in m.history || r == t.runId
  {
  }

  lemma MarkKeepsTables(m: Model, s: RunId, a: RunId, at: int)
    requires Mergeable(m, s, a)
    ensures var marked := WithControllerEvidence(m, s, a, at);
            && SameTables(m, marked)
            && (forall r :: HistoryAt(marked.history, r) == HistoryAt(m.history, r))
            && (forall r :: r != s ==> (r in marked.history <==> r in m.history))
  {
    InsertKeepsTables(m, TouchedAt(m.taskRuns[s].(hasControllerTaskStateEvent := true), at));
  }

  lemma MergedFromTables(m: Model, s: RunId, a: RunId, graphs: ContractedGraphs)
    requires s != a
    ensures FoldedTables(m, s, a, MergedFrom(m, s, a, graphs))
  {
  }

  lemma FoldedFrom(m: Model, marked: Model, s: RunId, a: RunId, merged: Model)
    requires FoldedTables(marked, s, a, merged) && SameTables(m, marked)
    requires forall r :: HistoryAt(marked.history, r) == HistoryAt(m.history, r)
    requires forall r :: r != s ==> (r in marked.history <==> r in m.history)
    ensures FoldedTables(m, s, a, merged)
  {
  }

  lemma FoldedTouched(m: Model, s: RunId, a: RunId, merged: Model, t: TaskRun)
    requires FoldedTables(m, s, a, merged) && t.runId == s && s != a
    ensures FoldedTables(m, s, a, WithTaskRun(merged, t))
  {
    InsertKeepsTables(merged, t);
  }

  lemma MergeFolds(m: Model, s: RunId, a: RunId, at: int)
    requires Mergeable(m, s, a)
    ensures FoldedTables(m, s, a, MergeApplied(m, s, a, at))
  {
    var graphs := ImageGraphs(m, s, a);
    var marked, merged := WithControllerEvidence(m, s, a, at), Merged(m, s, a, graphs, at);
    MarkKeepsTables(m, s, a, at);
    MergedFromTables(marked, s, a, graphs);
    FoldedFrom(m, marked, s, a, merged);
    MergedRecords(m, s, a, graphs, at);
    FoldedTouched(m, s, a, merged, TouchedAt(merged.taskRuns[s], at));
  }

  lemma SurvivorTelemetry(start: map<RunId, Telemetry>, now: map<RunId, Telemetry>, s: RunId, a: RunId,
                          ids: seq<RunId>, more: seq<RunId>)
    requires TelemetryIs(start, now, s, ids) && TelemetryIs(start, now, a, more) && s != a
    ensures TelemetryIs(start, MergedTelemetry(now, s, a), s, ids + more)
  {
    PresentBoth(start, ids, more);
    var x, y := Present(start, ids), Present(start, more);
    if s in now && a in now {
      CombinedTelemetry(now[s], x, now[a], y);
    } else {
      assert x == [] || y == [];
      assert x + y == if x == [] then y else x;
    }
  }

  lemma NoTotals(t: RateTotals, parts: seq<RateTotals>)
    requires CombinesTotals(t, parts)
    ensures CombinesTotals(RateTotals(0, 0).Plus(t), parts)
  {
  }

  lemma SurvivorTotals(start: map<RunId, RateTotals>, now: map<RunId, RateTotals>, s: RunId, a: RunId,
                       ids: seq<RunId>, more: seq<RunId>)
    requires TotalsAre(start, now, s, ids) && TotalsAre(start, now, a, more) && s != a
    ensures TotalsAre(start, Drop(MergedTotals(now, s, a), a), s, ids + more)
  {
    PresentBoth(start, ids, more);
    var x, y := Present(start, ids), Present(start, more);
    if s in now && a in now {
      CombinedTotals(now[s], x, now[a], y);
    } else {
      assert x == [] || y == [];
      assert x + y == if x == [] then y else x;
      if a in now { NoTotals(now[a], y); }
    }
  }

  lemma SurvivorHistory(start: Model, m: Model, s: RunId, a: RunId, after: Model, ids: seq<RunId>, more: seq<RunId>)
    requires HistoryIs(start, m, s, ids) && HistoryIs(start, m, a, more) && ids != [] && more != []
    requires HistoryAt(after.history, s) == FoldedHistory(HistoryAt(m.history, s), HistoryAt(m.history, a))
    ensures HistoryIs(start, after, s, ids + more)
  {
    CombinedHistory(HistoryAt(m.history, s), HistoriesOf(start, ids), HistoryAt(m.history, a),
                    HistoriesOf(start, more));
    assert HistoriesOf(start, ids + more) == HistoriesOf(start, ids) + HistoriesOf(start, more);
  }

  lemma SurvivorKind(start: Model, m: Model, s: RunId, a: RunId, after: Model, ids: seq<RunId>, more: seq<RunId>)
    requires IsFirst(KindIn(m)(s), ids, KindIn(start)) && IsFirst(KindIn(m)(a), more, KindIn(start)) && s != a
    requires after.runKinds == MergedKinds(m.runKinds, s, a)
    ensures IsFirst(KindIn(after)(s), ids + more, KindIn(start))
  {
    FirstOfBoth(KindIn(m)(s), ids, KindIn(m)(a), more, KindIn(start));
  }

  lemma SurvivorCursor(start: Model, m: Model, s: RunId, a: RunId, after: Model, ids: seq<RunId>)
    requires after.rateCursors == Drop(Drop(m.rateCursors, s), a) && |ids| > 1
    ensures CursorIs(start, after, s, ids)
  {
  }

  /** Survivor and absorbed run after a merge. */
  lemma MergeHolds(start: Model, m: Model, s: RunId, a: RunId, after: Model, ids: seq<RunId>, more: seq<RunId>)
    requires Holds(start, m, s, ids) && Holds(start, m, a, more) && s != a && ids != [] && more != []
    requires FoldedTables(m, s, a, after)
    ensures Holds(start, after, s, ids + more)
  {
    SurvivorTelemetry(start.telemetry, m.telemetry, s, a, ids, more);
    SurvivorTotals(start.rateTotals, m.rateTotals, s, a, ids, more);
    SurvivorHistory(start, m, s, a, after, ids, more);
    SurvivorKind(start, m, s, a, after, ids, more);
    SurvivorCursor(start, m, s, a, after, ids + more);
  }

  lemma AbsorbedHoldsNothing(start: Model, m: Model, s: RunId, a: RunId, after: Model)
    requires FoldedTables(m, s, a, after) && s != a
    ensures Holds(start, after, a, [])
  {
  }

  /** The entries of run `r` are the same in both models. */
  ghost predicate SameEntries(m: Model, after: Model, r: RunId) {
    && (r in after.telemetry <==> r in m.telemetry) && (r in m.telemetry ==> after.telemetry[r] == m.telemetry[r])
    && (r in after.rateTotals <==> r in m.rateTotals) && (r in m.rateTotals ==> after.rateTotals[r] == m.rateTotals[r])
    && (r in after.rateCursors <==> r in m.rateCursors)
    && (r in m.rateCursors ==> after.rateCursors[r] == m.rateCursors[r])
    && KindIn(after)(r) == KindIn(m)(r)
    && HistoryAt(after.history, r) == HistoryAt(m.history, r) && (r in after.history ==> r in m.history)
  }

  lemma OthersKeepEntries(m: Model, s: RunId, a: RunId, after: Model, r: RunId)
    requires FoldedTables(m, s, a, after) && r != s && r != a
    ensures SameEntries(m, after, r)
  {
  }

  lemma SameEntriesHold(start: Model, m: Model, after: Model, r: RunId, ids: seq<RunId>)
    requires Holds(start, m, r, ids) && SameEntries(m, after, r)
    ensures Holds(start, after, r, ids)
  {
  }

  lemma MergeHoldsElsewhere(start: Model, m: Model, s: RunId, a: RunId, after: Model, r: RunId, ids: seq<RunId>)
    requires Holds(start, m, r, ids) && FoldedTables(m, s, a, after) && r != s && r != a
    ensures Holds(start, after, r, ids)
  {
    OthersKeepEntries(m, s, a, after, r);
    SameEntriesHold(start, m, after, r, ids);
  }

  /** One merge: the survivor holds the combination of both runs, and no other run's entries change. */
  lemma MergeCombines(m: Model, s: RunId, a: RunId, at: int)
    requires Mergeable(m, s, a) && Words(m)
    ensures Holds(m, MergeApplied(m, s, a, at), s, [s, a])
    ensures forall r :: r != s && r != a ==> SameEntries(m, MergeApplied(m, s, a, at), r)
  {
    MergeFolds(m, s, a, at);
    HoldsAtFirst(m, s);
    HoldsAtFirst(m, a);
    MergeHolds(m, m, s, a, MergeApplied(m, s, a, at), [s], [a]);
    assert [s] + [a] == [s, a];
    forall r | r != s && r != a ensures SameEntries(m, MergeApplied(m, s, a, at), r) {
      OthersKeepEntries(m, s, a, MergeApplied(m, s, a, at), r);
    }
  }

  // ----- every run of the system

  lemma SameTablesHold(start: Model, m: Model, after: Model, r: RunId, ids: seq<RunId>)
    requires Holds(start, m, r, ids) && SameTables(m, after) && HistoryAt(after.history, r) == HistoryAt(m.history, r)
    requires ids == [] ==> r !in after.history
    ensures Holds(start, after, r, ids)
  {
  }

  lemma BindKeepsTables(m: Model, run: RunId, key: RunKey, at: int, aliasRunId: RunId)
    requires IdentityInvariant(m) && Bound(m, run, key, at, aliasRunId).Ok?
    ensures var after := Bound(m, run, key, at, aliasRunId).value.model;
            && SameTables(m, after) && (forall r :: HistoryAt(after.history, r) == HistoryAt(m.history, r))
            && run in m.taskRuns && forall r :: r in after.history ==> r in m.history || r == run
  {
    BoundResult(m, run, key, at, aliasRunId);
  }

  ghost predicate Undisturbed(sys: System, after: Model) {
    && SameTables(sys.model, after)
    && (forall r :: HistoryAt(after.history, r) == HistoryAt(sys.model.history, r))
    && forall r :: r in after.history ==> r in sys.model.history || r !in sys.retired
  }

  predicate Inserts(op: Op) { op.AdmitRun? || op.UpdateRun? }

  lemma OtherRowsKeepTables(m: Model, op: Op)
    requires !op.ApplyPlan? && !Inserts(op)
    ensures SameTables(m, RowStep(m, op)) && RowStep(m, op).history == m.history
  {
    match op
    case AdmitExecution(e) => assert RowStep(m, op) == m.(executions := m.executions[e.executionId := e]);
    case AdmitAgentNode(n) => assert RowStep(m, op) == m.(agentNodes := m.agentNodes[n.agentNodeId := n]);
    case LinkExecution(_) => assert RowStep(m, op) == m.(executionEdges := RowStep(m, op).executionEdges);
    case LinkDependency(_) => assert RowStep(m, op) == m.(dependencyEdges := RowStep(m, op).dependencyEdges);
    case InstallImage(_) => assert RowStep(m, op) == m.(publications := RowStep(m, op).publications);
    case ReleaseImages(_) => assert RowStep(m, op) == m.(publications := RowStep(m, op).publications);
  }

  lemma InsertedIsLive(sys: System, op: Op)
    requires Good(sys) && Enabled(sys, op) && Inserts(op)
    ensures op.run.runId !in sys.retired
  {
    if op.UpdateRun? { assert Mentions(sys.model, op.run.runId); }
  }

  lemma QuietRow(sys: System, op: Op)
    requires Good(sys) && Enabled(sys, op) && !op.ApplyPlan?
    ensures Undisturbed(sys, RowStep(sys.model, op))
  {
    if Inserts(op) {
      InsertedIsLive(sys, op);
      InsertKeepsTables(sys.model, op.run);
      assert RowStep(sys.model, op) == WithTaskRun(sys.model, op.run);
    } else {
      OtherRowsKeepTables(sys.model, op);
    }
  }

  lemma UnmergedPlan(sys: System, plan: BindingPlan, at: int, aliasRunId: RunId)
    requires Good(sys) && !(plan.Merge? && MergeAccepted(sys.model, plan.survivor, plan.absorbed))
    ensures Undisturbed(sys, PlanStep(sys, plan, at, aliasRunId).model)
  {
    if plan.Bind? && Bound(sys.model, plan.run, plan.key, at, aliasRunId).Ok? {
      BindKeepsTables(sys.model, plan.run, plan.key, at, aliasRunId);
      assert Mentions(sys.model, plan.run);
    }
  }

  /** A step without a merge keeps the tables, and makes lifecycle state only for runs that are not retired. */
  lemma QuietStep(sys: System, op: Op)
    requires Good(sys) && Enabled(sys, op) && !Merges(sys, op)
    ensures Undisturbed(sys, Next(sys, op).model)
  {
    if op.ApplyPlan? { UnmergedPlan(sys, op.plan, op.at, op.aliasRunId); } else { QuietRow(sys, op); }
  }

  lemma MergeStepHolds(start: Model, m: Model, s: RunId, a: RunId, after: Model, parts: RunId -> seq<RunId>, r: RunId)
    requires FoldedTables(m, s, a, after) && s != a && parts(s) != [] && parts(a) != []
    requires forall x :: Holds(start, m, x, parts(x))
    ensures Holds(start, after, r, if r == s then parts(s) + parts(a) else if r == a then [] else parts(r))
  {
    if r == s {
      MergeHolds(start, m, s, a, after, parts(s), parts(a));
    } else if r == a {
      AbsorbedHoldsNothing(start, m, s, a, after);
    } else {
      MergeHoldsElsewhere(start, m, s, a, after, r, parts(r));
    }
  }

  lemma QuietStepHolds(start: Model, sys: System, op: Op, r: RunId, ids: seq<RunId>)
    requires Good(sys) && Enabled(sys, op) && !Merges(sys, op) && Holds(start, sys.model, r, ids)
    requires ids == [] ==> r in sys.retired
    ensures Holds(start, Next(sys, op).model, r, ids)
  {
    QuietStep(sys, op);
    if ids == [] { assert r !in sys.model.history; }
    SameTablesHold(start, sys.model, Next(sys, op).model, r, ids);
  }

  /**
   * Conservation over every run of the system: telemetry, totals, kind, lifecycle state and cursor of every run are
   * the combination of what its parts started with.
   */
  lemma {:induction false} RunsConserve(sys: System, ops: seq<Op>, r: RunId)
    requires Good(sys) && Words(sys.model) && EnabledThroughout(sys, ops)
    ensures Holds(sys.model, Run(sys, ops).model, r, Parts(sys, ops, r))
    decreases |ops|
  {
    if ops == [] {
      HoldsAtFirst(sys.model, r);
    } else {
      var init, op := ops[..|ops| - 1], ops[|ops| - 1];
      RunLast(sys, ops);
      RunsStayGood(sys, init);
      var before := Run(sys, init);
      if Merges(before, op) {
        forall x ensures Holds(sys.model, before.model, x, Parts(sys, init, x)) { RunsConserve(sys, init, x); }
        LiveHasParts(sys, init, op.plan.survivor);
        LiveHasParts(sys, init, op.plan.absorbed);
        MergeFolds(before.model, op.plan.survivor, op.plan.absorbed, op.at);
        MergeStepHolds(sys.model, before.model, op.plan.survivor, op.plan.absorbed, Next(before, op).model,
                       (x: RunId) => Parts(sys, init, x), r);
      } else {
        RunsConserve(sys, init, r);
        if Parts(sys, init, r) == [] { PartlessIsRetired(sys, init, r); }
        QuietStepHolds(sys.model, before, op, r, Parts(sys, init, r));
      }
    }
  }

  // ----- rows and edges

  /** No operation of the run admits a row under this identifier. */
  ghost predicate NotAdmitted(ops: seq<Op>, i: RowId) {
    forall op :: op in ops ==> !(op.AdmitExecution? && op.execution.executionId == i)
  }

  lemma PlanMovesRows(sys: System, plan: BindingPlan, at: int, aliasRunId: RunId, i: RowId)
    requires Good(sys) && i in sys.model.executions
    ensures var after := PlanStep(sys, plan, at, aliasRunId).model;
            && i in after.executions
            && after.executions[i] == sys.model.executions[i].(
                 taskRunId := Moved(sys, plan, sys.model.executions[i].taskRunId))
  {
    var m := sys.model;
    if plan.Merge? && MergeAccepted(m, plan.survivor, plan.absorbed) { MergeRows(m, plan.survivor, plan.absorbed, at); }
    if plan.Bind? && Bound(m, plan.run, plan.key, at, aliasRunId).Ok? {
      BoundResult(m, plan.run, plan.key, at, aliasRunId);
    }
  }

  /** What each operation other than a plan writes. */
  lemma RowStepWrites(m: Model, op: Op)
    requires !op.ApplyPlan?
    ensures op.AdmitExecution? || RowStep(m, op).executions == m.executions
    ensures op.AdmitAgentNode? || RowStep(m, op).agentNodes == m.agentNodes
    ensures op.InstallImage? || op.ReleaseImages? || RowStep(m, op).publications == m.publications
    ensures op.LinkExecution? || RowStep(m, op).executionEdges == m.executionEdges
    ensures op.LinkDependency? || RowStep(m, op).dependencyEdges == m.dependencyEdges
  {
    match op
    case AdmitRun(t) => InsertKeepsRows(m, t);
    case UpdateRun(t) => InsertKeepsRows(m, t);
    case AdmitExecution(e) => assert RowStep(m, op) == m.(executions := m.executions[e.executionId := e]);
    case AdmitAgentNode(n) => assert RowStep(m, op) == m.(agentNodes := m.agentNodes[n.agentNodeId := n]);
    case LinkExecution(_) => assert RowStep(m, op) == m.(executionEdges := RowStep(m, op).executionEdges);
    case LinkDependency(_) => assert RowStep(m, op) == m.(dependencyEdges := RowStep(m, op).dependencyEdges);
    case InstallImage(_) => assert RowStep(m, op) == m.(publications := RowStep(m, op).publications);
    case ReleaseImages(_) => assert RowStep(m, op) == m.(publications := RowStep(m, op).publications);
  }

  lemma RowsKeepExecution(m: Model, op: Op, i: RowId)
    requires !op.ApplyPlan? && i in m.executions && !(op.AdmitExecution? && op.execution.executionId == i)
    ensures i in RowStep(m, op).executions && RowStep(m, op).executions[i] == m.executions[i]
  {
    RowStepWrites(m, op);
  }

  lemma RowsKeepNode(m: Model, op: Op, i: RowId)
    requires !op.ApplyPlan? && i in m.agentNodes && !(op.AdmitAgentNode? && op.node.agentNodeId == i)
    ensures i in RowStep(m, op).agentNodes && RowStep(m, op).agentNodes[i] == m.agentNodes[i]
  {
    RowStepWrites(m, op);
  }

  lemma StepMovesRows(sys: System, op: Op, i: RowId)
    requires Good(sys) && i in sys.model.executions
    requires !(op.AdmitExecution? && op.execution.executionId == i)
    ensures var after := Next(sys, op).model;
            && i in after.executions
            && after.executions[i] == sys.model.executions[i].(
                 taskRunId := FollowOne(sys, op, sys.model.executions[i].taskRunId))
  {
    if op.ApplyPlan? {
      PlanMovesRows(sys, op.plan, op.at, op.aliasRunId, i);
    } else {
      RowsKeepExecution(sys.model, op, i);
    }
  }

  /** No execution is lost or altered: over any run it only moves to the run that its own was merged into. */
  lemma {:induction false} ExecutionsFollowMerges(sys: System, ops: seq<Op>, i: RowId)
    requires Good(sys) && EnabledThroughout(sys, ops) && i in sys.model.executions && NotAdmitted(ops, i)
    ensures var final := Run(sys, ops).model;
            && i in final.executions
            && final.executions[i] == sys.model.executions[i].(
                 taskRunId := Follow(sys, ops, sys.model.executions[i].taskRunId))
    decreases ops
  {
    if ops != [] {
      assert ops[0] in ops && forall op :: op in ops[1..] ==> op in ops;
      StepMovesRows(sys, ops[0], i);
      StepKeepsGood(sys, ops[0]);
      ExecutionsFollowMerges(Next(sys, ops[0]), ops[1..], i);
    }
  }

  ghost predicate NodeNotAdmitted(ops: seq<Op>, i: RowId) {
    forall op :: op in ops ==> !(op.AdmitAgentNode? && op.node.agentNodeId == i)
  }

  lemma PlanMovesNodes(sys: System, plan: BindingPlan, at: int, aliasRunId: RunId, i: RowId)
    requires Good(sys) && i in sys.model.agentNodes
    ensures var after := PlanStep(sys, plan, at, aliasRunId).model;
            && i in after.agentNodes
            && after.agentNodes[i] == sys.model.agentNodes[i].(
                 taskRunId := Moved(sys, plan, sys.model.agentNodes[i].taskRunId))
  {
    var m := sys.model;
    if plan.Merge? && MergeAccepted(m, plan.survivor, plan.absorbed) { MergeRows(m, plan.survivor, plan.absorbed, at); }
    if plan.Bind? && Bound(m, plan.run, plan.key, at, aliasRunId).Ok? {
      BoundResult(m, plan.run, plan.key, at, aliasRunId);
    }
  }

  lemma StepMovesNodes(sys: System, op: Op, i: RowId)
    requires Good(sys) && i in sys.model.agentNodes
    requires !(op.AdmitAgentNode? && op.node.agentNodeId == i)
    ensures var after := Next(sys, op).model;
            && i in after.agentNodes
            && after.agentNodes[i] == sys.model.agentNodes[i].(
                 taskRunId := FollowOne(sys, op, sys.model.agentNodes[i].taskRunId))
  {
    if op.ApplyPlan? {
      PlanMovesNodes(sys, op.plan, op.at, op.aliasRunId, i);
    } else {
      RowsKeepNode(sys.model, op, i);
    }
  }

  /** The same for agent nodes. */
  lemma {:induction false} NodesFollowMerges(sys: System, ops: seq<Op>, i: RowId)
    requires Good(sys) && EnabledThroughout(sys, ops) && i in sys.model.agentNodes && NodeNotAdmitted(ops, i)
    ensures var final := Run(sys, ops).model;
            && i in final.agentNodes
            && final.agentNodes[i] == sys.model.agentNodes[i].(
                 taskRunId := Follow(sys, ops, sys.model.agentNodes[i].taskRunId))
    decreases ops
  {
    if ops != [] {
      assert ops[0] in ops && forall op :: op in ops[1..] ==> op in ops;
      StepMovesNodes(sys, ops[0], i);
      StepKeepsGood(sys, ops[0]);
      NodesFollowMerges(Next(sys, ops[0]), ops[1..], i);
    }
  }

  lemma PlanMovesEdges(sys: System, plan: BindingPlan, at: int, aliasRunId: RunId, e: Edge)
    requires Good(sys)
    ensures var after, moved := PlanStep(sys, plan, at, aliasRunId).model,
                                Edge(Moved(sys, plan, e.src), Moved(sys, plan, e.dst));
            && (e in sys.model.executionEdges ==> moved in after.executionEdges)
            && (e in sys.model.dependencyEdges ==> moved in after.dependencyEdges)
  {
    var m := sys.model;
    if plan.Merge? && MergeAccepted(m, plan.survivor, plan.absorbed) {
      MergeRows(m, plan.survivor, plan.absorbed, at);
      assert SubstituteEdge(e, plan.survivor, plan.absorbed) == Edge(Moved(sys, plan, e.src), Moved(sys, plan, e.dst));
    }
    if plan.Bind? && Bound(m, plan.run, plan.key, at, aliasRunId).Ok? {
      BoundResult(m, plan.run, plan.key, at, aliasRunId);
    }
  }

  lemma LinksKeepEdges(m: Model, op: Op, e: Edge)
    requires op.LinkExecution? || op.LinkDependency?
    ensures e in m.executionEdges ==> e in RowStep(m, op).executionEdges
    ensures e in m.dependencyEdges ==> e in RowStep(m, op).dependencyEdges
  {
    var after := RowStep(m, op);
    match op
    case LinkExecution(link) =>
      assert after == m || after == m.(executionEdges := m.executionEdges + {link});
    case LinkDependency(link) =>
      assert after == m || after == m.(dependencyEdges := m.dependencyEdges + {link});
  }

  lemma StepMovesEdges(sys: System, op: Op, e: Edge)
    requires Good(sys)
    ensures e in sys.model.executionEdges
            ==> Edge(FollowOne(sys, op, e.src), FollowOne(sys, op, e.dst)) in Next(sys, op).model.executionEdges
    ensures e in sys.model.dependencyEdges
            ==> Edge(FollowOne(sys, op, e.src), FollowOne(sys, op, e.dst)) in Next(sys, op).model.dependencyEdges
  {
    if op.ApplyPlan? {
      PlanMovesEdges(sys, op.plan, op.at, op.aliasRunId, e);
    } else {
      RowStepWrites(sys.model, op);
      if op.LinkExecution? || op.LinkDependency? { LinksKeepEdges(sys.model, op, e); }
    }
  }

  /** No edge is lost: over any run its ends follow their runs. */
  lemma {:induction false} EdgesFollowMerges(sys: System, ops: seq<Op>, e: Edge)
    requires Good(sys) && EnabledThroughout(sys, ops)
    ensures e in sys.model.executionEdges
            ==> Edge(Follow(sys, ops, e.src), Follow(sys, ops, e.dst)) in Run(sys, ops).model.executionEdges
    ensures e in sys.model.dependencyEdges
            ==> Edge(Follow(sys, ops, e.src), Follow(sys, ops, e.dst)) in Run(sys, ops).model.dependencyEdges
    decreases ops
  {
    if ops != [] {
      StepMovesEdges(sys, ops[0], e);
      StepKeepsGood(sys, ops[0]);
      EdgesFollowMerges(Next(sys, ops[0]), ops[1..],
                        Edge(FollowOne(sys, ops[0], e.src), FollowOne(sys, ops[0], e.dst)));
    }
  }

  // ----- before-images

  lemma PlanMovesImages(sys: System, plan: BindingPlan, at: int, aliasRunId: RunId, r: RunId)
    requires Good(sys) && r in sys.model.publications
    ensures var after := PlanStep(sys, plan, at, aliasRunId).model;
            && r in after.publications
            && after.publications[r] == sys.model.publications[r].(
                 canonicalRunId := Moved(sys, plan, sys.model.publications[r].canonicalRunId))
  {
    var m := sys.model;
    if plan.Merge? && MergeAccepted(m, plan.survivor, plan.absorbed) { MergeRows(m, plan.survivor, plan.absorbed, at); }
    if plan.Bind? && Bound(m, plan.run, plan.key, at, aliasRunId).Ok? {
      BoundResult(m, plan.run, plan.key, at, aliasRunId);
    }
  }

  lemma RowsKeepImages(m: Model, op: Op, r: RunId)
    requires !op.ApplyPlan? && !op.ReleaseImages? && r in m.publications
    ensures r in RowStep(m, op).publications && RowStep(m, op).publications[r] == m.publications[r]
  {
    RowStepWrites(m, op);
  }

  /**
   * Until images are released none is lost or replaced: the first of a run stays, and stands for what its run became.
   */
  lemma {:induction false} ImagesFollowMerges(sys: System, ops: seq<Op>, r: RunId)
    requires Good(sys) && EnabledThroughout(sys, ops) && r in sys.model.publications
    requires forall op :: op in ops ==> !op.ReleaseImages?
    ensures var final := Run(sys, ops).model;
            && r in final.publications
            && final.publications[r] == sys.model.publications[r].(
                 canonicalRunId := Follow(sys, ops, sys.model.publications[r].canonicalRunId))
    decreases ops
  {
    if ops != [] {
      assert ops[0] in ops && forall op :: op in ops[1..] ==> op in ops;
      if ops[0].ApplyPlan? {
        PlanMovesImages(sys, ops[0].plan, ops[0].at, ops[0].aliasRunId, r);
      } else {
        RowsKeepImages(sys.model, ops[0], r);
      }
      StepKeepsGood(sys, ops[0]);
      ImagesFollowMerges(Next(sys, ops[0]), ops[1..], r);
    }
  }

  // ----- the saturation counter

  lemma CountedFrom(m: Model, s: RunId, a: RunId, graphs: ContractedGraphs)
    ensures MergedFrom(m, s, a, graphs).rateSaturations
            == m.rateSaturations + if TotalsSaturate(m.rateTotals, s, a) then 1 else 0
  {
  }

  lemma MarkKeepsTotals(m: Model, s: RunId, a: RunId, at: int)
    ensures WithControllerEvidence(m, s, a, at).rateTotals == m.rateTotals
    ensures WithControllerEvidence(m, s, a, at).rateSaturations == m.rateSaturations
  {
  }

  lemma InsertKeepsCounter(m: Model, t: TaskRun)
    ensures WithTaskRun(m, t).rateSaturations == m.rateSaturations
  {
  }

  lemma MergeCounts(m: Model, s: RunId, a: RunId, at: int)
    requires Mergeable(m, s, a)
    ensures MergeApplied(m, s, a, at).rateSaturations
            == m.rateSaturations + if TotalsSaturate(m.rateTotals, s, a) then 1 else 0
  {
    var graphs := ImageGraphs(m, s, a);
    var marked, merged := WithControllerEvidence(m, s, a, at), Merged(m, s, a, graphs, at);
    MarkKeepsTotals(m, s, a, at);
    CountedFrom(marked, s, a, graphs);
    MergedRecords(m, s, a, graphs, at);
    InsertKeepsCounter(merged, TouchedAt(merged.taskRuns[s], at));
  }

  /** The totals that a merge leaves to `s` are not what adding those of both exactly would give. */
  ghost predicate LosesTotals(totals: map<RunId, RateTotals>, s: RunId, a: RunId, after: map<RunId, RateTotals>) {
    && a in totals && s in after
    && var had := if s in totals then totals[s] else RateTotals(0, 0);
       after[s] != RateTotals(had.outputTokens + totals[a].outputTokens, had.workingMs + totals[a].workingMs)
  }

  lemma CountsLoss(totals: map<RunId, RateTotals>, s: RunId, a: RunId, after: map<RunId, RateTotals>)
    requires s != a && (forall r :: r in totals ==> totals[r].workingMs <= I64_MAX)
    requires after == Drop(MergedTotals(totals, s, a), a)
    ensures TotalsSaturate(totals, s, a) <==> LosesTotals(totals, s, a, after)
  {
    if a in totals { SaturatedExactly(TotalsAt(Drop(totals, a), s), totals[a]); }
  }

  /** A merge is counted as saturated exactly when the totals it stores are not the exact sum. */
  lemma MergeCountsSaturation(m: Model, s: RunId, a: RunId, at: int)
    requires Mergeable(m, s, a) && Words(m)
    ensures var after := MergeApplied(m, s, a, at);
            after.rateSaturations
            == m.rateSaturations + if LosesTotals(m.rateTotals, s, a, after.rateTotals) then 1 else 0
  {
    MergeCounts(m, s, a, at);
    MergeFolds(m, s, a, at);
    CountsLoss(m.rateTotals, s, a, MergeApplied(m, s, a, at).rateTotals);
  }
}
