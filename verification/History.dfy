/** History quarantine: hiding unfinished runs behind captured before-images, and diffing two models. */
module History {
  import opened Types
  import opened Entities
  import opened Domain
  import opened Components

  // ----- the rows of some runs, table by table

  function KeysAway(owners: map<RunKey, RunId>, runs: set<RunId>): map<RunKey, RunId> {
    map k | k in owners && owners[k] !in runs :: owners[k]
  }

  function KeysOf(owners: map<RunKey, RunId>, run: RunId): set<RunKey> {
    set k | k in owners && owners[k] == run
  }

  function ExecutionsAway(rows: map<RowId, Execution>, runs: set<RunId>): map<RowId, Execution> {
    map i | i in rows && rows[i].taskRunId !in runs :: rows[i]
  }

  function ExecutionsOf(rows: map<RowId, Execution>, run: RunId): map<RowId, Execution> {
    map i | i in rows && rows[i].taskRunId == run :: rows[i]
  }

  function NodesAway(rows: map<RowId, AgentNode>, runs: set<RunId>): map<RowId, AgentNode> {
    map i | i in rows && rows[i].taskRunId !in runs :: rows[i]
  }

  function NodesOf(rows: map<RowId, AgentNode>, run: RunId): map<RowId, AgentNode> {
    map i | i in rows && rows[i].taskRunId == run :: rows[i]
  }

  function EdgesAway(edges: set<Edge>, runs: set<RunId>): set<Edge> {
    set e | e in edges && e.src !in runs && e.dst !in runs
  }

  function EdgesOf(edges: set<Edge>, run: RunId): set<Edge> {
    set e | e in edges && (e.src == run || e.dst == run)
  }

  function Lookup<K, V>(m: map<K, V>, k: K): Option<V> {
    if k in m then Some(m[k]) else None
  }

  function Put<K, V>(m: map<K, V>, k: K, v: Option<V>): map<K, V> {
    if v.Some? then m[k := v.value] else m
  }

  // ----- removing a run's projection

  function TablesRemoved(m: Model, runs: set<RunId>): Model {
    m.(taskRuns := m.taskRuns - runs,
       history := m.history - runs,
       rateTotals := m.rateTotals - runs,
       rateCursors := m.rateCursors - runs,
       telemetry := m.telemetry - runs,
       runKinds := m.runKinds - runs)
  }

  function RowsRemoved(m: Model, runs: set<RunId>): Model {
    m.(keyOwner := KeysAway(m.keyOwner, runs),
       executions := ExecutionsAway(m.executions, runs),
       agentNodes := NodesAway(m.agentNodes, runs),
       executionEdges := EdgesAway(m.executionEdges, runs),
       dependencyEdges := EdgesAway(m.dependencyEdges, runs))
  }

  /** The model without any row, key, edge or table entry of the given runs. */
  function Removed(m: Model, runs: set<RunId>): Model {
    RowsRemoved(TablesRemoved(m, runs), runs)
  }

  method RemoveTables(model: DomainModel, run: RunId)
    modifies model
    ensures model.State() == TablesRemoved(old(model.State()), {run})
  {
    model.taskRuns := model.taskRuns - {run};
    model.history := model.history - {run};
    model.rateTotals := model.rateTotals - {run};
    model.rateCursors := model.rateCursors - {run};
    model.telemetry := model.telemetry - {run};
    model.runKinds := model.runKinds - {run};
  }

  method RetainOwned(model: DomainModel, run: RunId)
    modifies model`keyOwner, model`executions, model`agentNodes
    ensures model.keyOwner == KeysAway(old(model.keyOwner), {run})
    ensures model.executions == ExecutionsAway(old(model.executions), {run})
    ensures model.agentNodes == NodesAway(old(model.agentNodes), {run})
  {
    model.keyOwner := map k | k in model.keyOwner && model.keyOwner[k] != run :: model.keyOwner[k];
    model.executions := map i | i in model.executions && model.executions[i].taskRunId != run :: model.executions[i];
    model.agentNodes := map i | i in model.agentNodes && model.agentNodes[i].taskRunId != run :: model.agentNodes[i];
  }

  method RetainEdges(model: DomainModel, run: RunId)
    modifies model`executionEdges, model`dependencyEdges
    ensures model.executionEdges == EdgesAway(old(model.executionEdges), {run})
    ensures model.dependencyEdges == EdgesAway(old(model.dependencyEdges), {run})
  {
    model.executionEdges := set e | e in model.executionEdges && e.src != run && e.dst != run;
    model.dependencyEdges := set e | e in model.dependencyEdges && e.src != run && e.dst != run;
  }

  method RetainRows(model: DomainModel, run: RunId)
    modifies model
    ensures model.State() == RowsRemoved(old(model.State()), {run})
  {
    RetainOwned(model, run);
    RetainEdges(model, run);
  }

  method RemoveTaskRunProjection(model: DomainModel, run: RunId)
    modifies model
    ensures model.State() == Removed(old(model.State()), {run})
  {
    RemoveTables(model, run);
    RetainRows(model, run);
  }

  // ----- capturing and restoring one run

  function Captured(m: Model, run: RunId): Option<Publication> {
    if run !in m.taskRuns then None
    else Some(Publication(
      run,
      m.taskRuns[run],
      HistoryAt(m.history, run),
      KeysOf(m.keyOwner, run),
      Lookup(m.rateTotals, run),
      ExecutionsOf(m.executions, run),
      NodesOf(m.agentNodes, run),
      EdgesOf(m.executionEdges, run),
      EdgesOf(m.dependencyEdges, run),
      Lookup(m.telemetry, run),
      Lookup(m.runKinds, run),
      Lookup(m.rateCursors, run)))
  }

  function ClampedOption(totals: Option<RateTotals>): Option<RateTotals> {
    if totals.Some? then Some(totals.value.Clamped()) else None
  }

  predicate Clamps(p: Publication) {
    p.rateTotals != ClampedOption(p.rateTotals)
  }

  function RestoredOwners(m: Model, p: Publication): map<RunKey, RunId> {
    OwnersWithAliases(OwnersWith(m.taskRuns, m.keyOwner, p.taskRun), p.aliases, p.taskRun.runId)
  }

  function RunRestored(m: Model, p: Publication): Model {
    var run := p.taskRun.runId;
    m.(taskRuns := m.taskRuns[run := p.taskRun],
       keyOwner := RestoredOwners(m, p),
       history := m.history[run := p.state],
       rateTotals := Put(m.rateTotals, run, ClampedOption(p.rateTotals)),
       rateCursors := Put(m.rateCursors, run, p.rateCursor),
       telemetry := Put(m.telemetry, run, p.telemetry),
       runKinds := Put(m.runKinds, run, p.runKind),
       rateSaturations := m.rateSaturations + if Clamps(p) then 1 else 0)
  }

  function RowsRestored(m: Model, p: Publication): Model {
    m.(executions := m.executions + p.executions,
       agentNodes := m.agentNodes + p.agentNodes,
       executionEdges := m.executionEdges + p.executionEdges,
       dependencyEdges := m.dependencyEdges + p.dependencyEdges)
  }

  /** The model after one before-image is put back over it. */
  function Restored(m: Model, p: Publication): Model {
    RowsRestored(RunRestored(m, p), p)
  }

  method RestoreRows(model: DomainModel, p: Publication)
    modifies model
    ensures model.State() == RowsRestored(old(model.State()), p)
  {
    model.executions := model.executions + p.executions;
    model.agentNodes := model.agentNodes + p.agentNodes;
    model.executionEdges := model.executionEdges + p.executionEdges;
    model.dependencyEdges := model.dependencyEdges + p.dependencyEdges;
  }

  method RestoreIdentity(model: DomainModel, p: Publication)
    modifies model`taskRuns, model`keyOwner, model`history
    ensures model.taskRuns == old(model.taskRuns)[p.taskRun.runId := p.taskRun]
    ensures model.keyOwner == RestoredOwners(old(model.State()), p)
    ensures model.history == old(model.history)[p.taskRun.runId := p.state]
  {
    model.InsertTaskRun(p.taskRun);
    model.history := model.history[p.taskRun.runId := p.state];
    model.InsertAliases(p.aliases, p.taskRun.runId);
  }

  method RestoreTables(model: DomainModel, run: RunId, p: Publication)
    modifies model`rateTotals, model`rateSaturations, model`rateCursors, model`telemetry, model`runKinds
    ensures model.rateTotals == Put(old(model.rateTotals), run, ClampedOption(p.rateTotals))
    ensures model.rateSaturations == old(model.rateSaturations) + if Clamps(p) then 1 else 0
    ensures model.rateCursors == Put(old(model.rateCursors), run, p.rateCursor)
    ensures model.telemetry == Put(old(model.telemetry), run, p.telemetry)
    ensures model.runKinds == Put(old(model.runKinds), run, p.runKind)
  {
    if p.rateTotals.Some? {
      var totals := p.rateTotals.value.Clamped();
      if totals != p.rateTotals.value { model.rateSaturations := model.rateSaturations + 1; }
      model.rateTotals := model.rateTotals[run := totals];
    }
    if p.rateCursor.Some? { model.rateCursors := model.rateCursors[run := p.rateCursor.value]; }
    if p.telemetry.Some? { model.telemetry := model.telemetry[run := p.telemetry.value]; }
    if p.runKind.Some? { model.runKinds := model.runKinds[run := p.runKind.value]; }
  }

  method RestoreRun(model: DomainModel, p: Publication)
    modifies model
    ensures model.State() == RunRestored(old(model.State()), p)
  {
    RestoreIdentity(model, p);
    RestoreTables(model, p.taskRun.runId, p);
  }

  method RestoreHistoryPublication(model: DomainModel, p: Publication)
    modifies model
    ensures model.State() == Restored(old(model.State()), p)
  {
    RestoreRun(model, p);
    RestoreRows(model, p);
  }

  // ----- the round trip

  /** The run is addressable by its own key, has lifecycle state, and has totals within the durable domain. */
  predicate Restorable(m: Model, run: RunId) {
    && run in m.taskRuns
    && m.taskRuns[run].key in m.keyOwner && m.keyOwner[m.taskRuns[run].key] == run
    && run in m.history
    && (run in m.rateTotals ==> m.rateTotals[run] == m.rateTotals[run].Clamped())
  }

  lemma PutBack<K, V>(m: map<K, V>, k: K)
    ensures Put(m - {k}, k, Lookup(m, k)) == m
  {
  }

  lemma RowsPutBack(m: Model, run: RunId)
    ensures ExecutionsAway(m.executions, {run}) + ExecutionsOf(m.executions, run) == m.executions
    ensures NodesAway(m.agentNodes, {run}) + NodesOf(m.agentNodes, run) == m.agentNodes
  {
  }

  lemma EdgesPutBack(edges: set<Edge>, run: RunId)
    ensures EdgesAway(edges, {run}) + EdgesOf(edges, run) == edges
  {
  }

  lemma KeysPutBack(m: Model, run: RunId)
    requires run in m.taskRuns && m.taskRuns[run].runId == run
    ensures RestoredOwners(Removed(m, {run}), Captured(m, run).value) == m.keyOwner[m.taskRuns[run].key := run]
  {
    var away, t := KeysAway(m.keyOwner, {run}), m.taskRuns[run];
    assert OwnersWith(m.taskRuns - {run}, away, t) == away[t.key := run];
    assert OwnersWithAliases(away[t.key := run], KeysOf(m.keyOwner, run), run) == m.keyOwner[t.key := run];
  }

  /** What restoring a capture gives in general: the own key and lifecycle state are completed, totals are clamped. */
  lemma RestoredCapture(m: Model, run: RunId)
    requires run in m.taskRuns && m.taskRuns[run].runId == run
    ensures Restored(Removed(m, {run}), Captured(m, run).value)
         == m.(keyOwner := m.keyOwner[m.taskRuns[run].key := run],
               history := m.history[run := HistoryAt(m.history, run)],
               rateTotals := Put(m.rateTotals, run, ClampedOption(Lookup(m.rateTotals, run))),
               rateSaturations := m.rateSaturations + if Clamps(Captured(m, run).value) then 1 else 0)
  {
    KeysPutBack(m, run);
    RowsPutBack(m, run);
    EdgesPutBack(m.executionEdges, run);
    EdgesPutBack(m.dependencyEdges, run);
    PutBack(m.rateCursors, run);
    PutBack(m.telemetry, run);
    PutBack(m.runKinds, run);
  }

  /** Restored totals are brought into the range that is stored, and counted exactly when they were outside it. */
  lemma RestoredTotals(m: Model, p: Publication)
    ensures var after, run := Restored(m, p), p.taskRun.runId;
            match p.rateTotals
            case None => after.rateTotals == m.rateTotals && after.rateSaturations == m.rateSaturations
            case Some(t) =>
              && run in after.rateTotals && after.rateTotals == m.rateTotals[run := after.rateTotals[run]]
              && after.rateTotals[run].outputTokens
                 == (if t.outputTokens > PERSISTED_RATE_TOTAL_MAX then PERSISTED_RATE_TOTAL_MAX else t.outputTokens)
              && after.rateTotals[run].workingMs == (if t.workingMs < 0 then 0 else t.workingMs)
              && after.rateSaturations == m.rateSaturations
                 + (if t.outputTokens > PERSISTED_RATE_TOTAL_MAX || t.workingMs < 0 then 1 else 0)
  {
  }

  lemma SameAfterUpdate<K, V>(m: map<K, V>, k: K, v: V)
    ensures m[k := v] == m <==> k in m && m[k] == v
  {
    assert k in m[k := v] && m[k := v][k] == v;
  }

  /** Removing a run's projection and restoring its capture is the identity exactly on restorable runs. */
  lemma RoundTrip(m: Model, run: RunId)
    requires m.WellKeyed() && run in m.taskRuns
    ensures Restored(Removed(m, {run}), Captured(m, run).value) == m <==> Restorable(m, run)
  {
    RestoredCapture(m, run);
    SameAfterUpdate(m.keyOwner, m.taskRuns[run].key, run);
    SameAfterUpdate(m.history, run, HistoryAt(m.history, run));
    if run in m.rateTotals { SameAfterUpdate(m.rateTotals, run, m.rateTotals[run].Clamped()); }
  }

  // ----- the published snapshot

  /** Runs whose history drain has not finished. */
  function BlockedRuns(m: Model): set<RunId> {
    set r | r in m.history && !m.history[r].historyReady
  }

  /** The before-images that stand in for the blocked runs. */
  function Selected(m: Model, blocked: set<RunId>): map<RunId, Publication> {
    map r | r in m.publications && m.publications[r].canonicalRunId in blocked :: m.publications[r]
  }

  /** Restoring the before-images one after the other, in the given order. */
  ghost function RestoredIn(m: Model, ps: map<RunId, Publication>, order: seq<RunId>): Model
    requires forall r :: r in order ==> r in ps
  {
    if order == [] then m
    else Restored(RestoredIn(m, ps, order[..|order| - 1]), ps[order[|order| - 1]])
  }

  function Members(order: seq<RunId>): set<RunId> {
    set r | r in order
  }

  ghost predicate Enumerates(order: seq<RunId>, keys: set<RunId>) {
    && (forall r :: r in order <==> r in keys)
    && forall i, j :: 0 <= i < j < |order| ==> order[i] != order[j]
  }

  /** `after` is a snapshot that publication may produce; hash order picks the order of restoring. */
  ghost predicate PublishedAs(m: Model, after: Model) {
    var blocked := BlockedRuns(m);
    if blocked == {} then after == m.(publications := map[])
    else exists order :: Enumerates(order, Selected(m, blocked).Keys)
                         && after == RestoredIn(Removed(m, blocked), Selected(m, blocked),
                                                order).(publications := map[])
  }

  lemma RowsAwayTwice(m: Model, a: set<RunId>, b: set<RunId>)
    ensures ExecutionsAway(ExecutionsAway(m.executions, a), b) == ExecutionsAway(m.executions, a + b)
    ensures NodesAway(NodesAway(m.agentNodes, a), b) == NodesAway(m.agentNodes, a + b)
  {
  }

  lemma EdgesAwayTwice(edges: set<Edge>, a: set<RunId>, b: set<RunId>)
    ensures EdgesAway(EdgesAway(edges, a), b) == EdgesAway(edges, a + b)
  {
  }

  lemma RemovedTwice(m: Model, a: set<RunId>, b: set<RunId>)
    ensures Removed(Removed(m, a), b) == Removed(m, a + b)
  {
    EdgesAwayTwice(m.executionEdges, a, b);
    EdgesAwayTwice(m.dependencyEdges, a, b);
    RowsAwayTwice(m, a, b);
    assert KeysAway(KeysAway(m.keyOwner, a), b) == KeysAway(m.keyOwner, a + b);
  }

  lemma RemovedNothing(m: Model)
    ensures Removed(m, {}) == m
  {
    assert KeysAway(m.keyOwner, {}) == m.keyOwner;
    assert ExecutionsAway(m.executions, {}) == m.executions;
    assert NodesAway(m.agentNodes, {}) == m.agentNodes;
    assert EdgesAway(m.executionEdges, {}) == m.executionEdges;
    assert EdgesAway(m.dependencyEdges, {}) == m.dependencyEdges;
  }

  method RemoveAll(model: DomainModel, runs: set<RunId>)
    modifies model
    ensures model.State() == Removed(old(model.State()), runs)
  {
    RemovedNothing(model.State());
    var rest := runs;
    while rest != {}
      invariant rest <= runs && model.State() == Removed(old(model.State()), runs - rest)
    {
      var r :| r in rest;
      RemovedTwice(old(model.State()), runs - rest, {r});
      RemoveTaskRunProjection(model, r);
      assert runs - (rest - {r}) == (runs - rest) + {r};
      rest := rest - {r};
    }
    assert runs - {} == runs;
  }

  method RestoreAll(model: DomainModel, ps: map<RunId, Publication>) returns (ghost order: seq<RunId>)
    modifies model
    ensures Enumerates(order, ps.Keys)
    ensures model.State() == RestoredIn(old(model.State()), ps, order)
  {
    order := [];
    var rest := ps.Keys;
    while rest != {}
      invariant rest <= ps.Keys && Enumerates(order, ps.Keys - rest)
      invariant model.State() == RestoredIn(old(model.State()), ps, order)
    {
      var r :| r in rest;
      RestoreHistoryPublication(model, ps[r]);
      assert (order + [r])[..|order|] == order;
      order := order + [r];
      rest := rest - {r};
    }
  }

  /** The number of dangling components a model shows. */
  ghost function DanglingCount(m: Model): nat {
    |DanglingComponents(m.executionEdges + m.dependencyEdges, m.taskRuns, RelationshipOnly(m))|
  }

  /** The published snapshot, and the new value of its dangling counter when blocked runs were hidden. */
  method PublicationSnapshot(model: DomainModel) returns (snapshot: DomainModel, dangling: Option<nat>)
    ensures fresh(snapshot) && PublishedAs(model.State(), snapshot.State())
    ensures dangling == if BlockedRuns(model.State()) == {} then None else Some(DanglingCount(snapshot.State()))
  {
    var m := model.State();
    snapshot := new DomainModel.FromState(m);
    dangling := None;
    var blocked := BlockedRuns(m);
    if blocked != {} {
      RemoveAll(snapshot, blocked);
      ghost var order := RestoreAll(snapshot, Selected(m, blocked));
      assert Enumerates(order, Selected(m, blocked).Keys);
      var count := DanglingAnnouncementComponents(snapshot.State());
      dangling := Some(count);
    }
    snapshot.publications := map[];
  }
}
