/** Which runs a model diff reports, and why an unreported run has an unchanged capture. */
module Diff {
  import opened Types
  import opened Entities
  import opened Domain
  import opened History

  // ----- which runs a diff reports

  function ChangedKeys<K, V(==)>(current: map<K, V>, before: map<K, V>): set<K> {
    set k | k in current.Keys + before.Keys && Lookup(current, k) != Lookup(before, k)
  }

  /** The owners, on either side, of rows that appeared, disappeared or changed. */
  function ChangedOwners<K, V(==)>(current: map<K, V>, before: map<K, V>, owner: V -> RunId): set<RunId> {
    (set k | k in ChangedKeys(current, before) && k in current :: owner(current[k]))
    + (set k | k in ChangedKeys(current, before) && k in before :: owner(before[k]))
  }

  function ChangedEndpoints(current: set<Edge>, before: set<Edge>): set<RunId> {
    (set e | e in (current - before) + (before - current) :: e.src)
    + (set e | e in (current - before) + (before - current) :: e.dst)
  }

  method CollectChangedMapKeys<V(==)>(current: map<RunId, V>, before: map<RunId, V>, changed0: set<RunId>)
    returns (changed: set<RunId>)
    ensures changed == changed0 + ChangedKeys(current, before)
  {
    changed := changed0;
    var rest := current.Keys;
    while rest != {}
      invariant rest <= current.Keys
      invariant changed == changed0 + set k | k in current && k !in rest && Lookup(before, k) != Some(current[k])
    {
      var k :| k in rest;
      if Lookup(before, k) != Some(current[k]) { changed := changed + {k}; }
      rest := rest - {k};
    }
    ghost var first := changed;
    rest := before.Keys;
    while rest != {}
      invariant rest <= before.Keys
      invariant changed == first + set k | k in before && k !in rest && k !in current
    {
      var k :| k in rest;
      if k !in current { changed := changed + {k}; }
      rest := rest - {k};
    }
    assert changed == changed0 + ChangedKeys(current, before);
  }

  lemma OwnersCollected<K, V>(current: map<K, V>, before: map<K, V>, owner: V -> RunId, changed0: set<RunId>,
                              changed: set<RunId>, first: set<RunId>)
    requires forall r :: r in first <==> (r in changed0
      || exists k :: k in ChangedKeys(current, before) && k in current
           && (owner(current[k]) == r || (k in before && owner(before[k]) == r)))
    requires forall r :: r in changed
               <==> (r in first || exists k :: k in before && k !in current && owner(before[k]) == r)
    ensures changed == changed0 + ChangedOwners(current, before, owner)
  {
  }

  method CollectChangedOwnedRows<K(==), V(==)>(current: map<K, V>, before: map<K, V>, owner: V -> RunId,
                                   changed0: set<RunId>)
    returns (changed: set<RunId>)
    ensures changed == changed0 + ChangedOwners(current, before, owner)
  {
    changed := changed0;
    var differing := ChangedKeys(current, before);
    var rest := current.Keys;
    while rest != {}
      invariant rest <= current.Keys
      invariant forall r :: r in changed <==> (r in changed0
        || exists k :: k in differing && k in current && k !in rest
             && (owner(current[k]) == r || (k in before && owner(before[k]) == r)))
    {
      var k :| k in rest;
      if Lookup(before, k) != Some(current[k]) {
        assert k in differing;
        changed := changed + {owner(current[k])};
        if k in before { changed := changed + {owner(before[k])}; }
      } else {
        assert k !in differing;
      }
      rest := rest - {k};
    }
    ghost var first := changed;
    rest := before.Keys;
    while rest != {}
      invariant rest <= before.Keys
      invariant forall r :: r in changed <==> (r in first
        || exists k :: k in before && k !in rest && k !in current && owner(before[k]) == r)
    {
      var k :| k in rest;
      if k !in current { changed := changed + {owner(before[k])}; }
      rest := rest - {k};
    }
    OwnersCollected(current, before, owner, changed0, changed, first);
  }

  method CollectChangedEdges(current: set<Edge>, before: set<Edge>, changed0: set<RunId>) returns (changed: set<RunId>)
    ensures changed == changed0 + ChangedEndpoints(current, before)
  {
    changed := changed0;
    var rest := (current - before) + (before - current);
    ghost var all := rest;
    while rest != {}
      invariant rest <= all
      invariant changed == changed0 + (set e | e in all - rest :: e.src) + (set e | e in all - rest :: e.dst)
    {
      var e :| e in rest;
      assert all - (rest - {e}) == (all - rest) + {e};
      changed := changed + {e.src, e.dst};
      rest := rest - {e};
    }
    assert all - {} == all;
  }

  function ChangedInTables(m: Model, before: Model): set<RunId> {
    ChangedKeys(m.taskRuns, before.taskRuns) + ChangedKeys(m.history, before.history)
    + ChangedKeys(m.rateTotals, before.rateTotals) + ChangedKeys(m.rateCursors, before.rateCursors)
    + ChangedKeys(m.telemetry, before.telemetry) + ChangedKeys(m.runKinds, before.runKinds)
  }

  function ChangedInRows(m: Model, before: Model): set<RunId> {
    ChangedOwners(m.executions, before.executions, (e: Execution) => e.taskRunId)
    + ChangedOwners(m.agentNodes, before.agentNodes, (n: AgentNode) => n.taskRunId)
    + ChangedEndpoints(m.executionEdges, before.executionEdges)
    + ChangedEndpoints(m.dependencyEdges, before.dependencyEdges)
    + ChangedOwners(m.keyOwner, before.keyOwner, (r: RunId) => r)
  }

  /** Every run whose projection differs between the two models. */
  function Changed(m: Model, before: Model): set<RunId> {
    ChangedInTables(m, before) + ChangedInRows(m, before)
  }

  method CollectChangedTables(model: DomainModel, before: DomainModel) returns (changed: set<RunId>)
    ensures changed == ChangedInTables(model.State(), before.State())
  {
    changed := CollectChangedMapKeys(model.taskRuns, before.taskRuns, {});
    changed := CollectChangedMapKeys(model.history, before.history, changed);
    changed := CollectChangedMapKeys(model.rateTotals, before.rateTotals, changed);
    changed := CollectChangedMapKeys(model.rateCursors, before.rateCursors, changed);
    changed := CollectChangedMapKeys(model.telemetry, before.telemetry, changed);
    changed := CollectChangedMapKeys(model.runKinds, before.runKinds, changed);
  }

  method ChangedTaskRunIdsSince(model: DomainModel, before: DomainModel) returns (changed: set<RunId>)
    ensures changed == Changed(model.State(), before.State())
  {
    changed := CollectChangedTables(model, before);
    changed := CollectChangedOwnedRows(model.executions, before.executions, (e: Execution) => e.taskRunId, changed);
    changed := CollectChangedOwnedRows(model.agentNodes, before.agentNodes, (n: AgentNode) => n.taskRunId, changed);
    changed := CollectChangedEdges(model.executionEdges, before.executionEdges, changed);
    changed := CollectChangedEdges(model.dependencyEdges, before.dependencyEdges, changed);
    changed := CollectChangedOwnedRows(model.keyOwner, before.keyOwner, (r: RunId) => r, changed);
  }

  /** Everything in the model that is keyed by, owned by or incident to one run. */
  datatype RunRows = RunRows(
    taskRun: Option<TaskRun>,
    history: Option<RunHistory>,
    rateTotals: Option<RateTotals>,
    rateCursor: Option<RateCursor>,
    telemetry: Option<Telemetry>,
    runKind: Option<string>,
    keys: set<RunKey>,
    executions: map<RowId, Execution>,
    agentNodes: map<RowId, AgentNode>,
    executionEdges: set<Edge>,
    dependencyEdges: set<Edge>)

  function RowsOf(m: Model, run: RunId): RunRows {
    RunRows(
      Lookup(m.taskRuns, run), Lookup(m.history, run), Lookup(m.rateTotals, run), Lookup(m.rateCursors, run),
      Lookup(m.telemetry, run), Lookup(m.runKinds, run), KeysOf(m.keyOwner, run),
      ExecutionsOf(m.executions, run), NodesOf(m.agentNodes, run),
      EdgesOf(m.executionEdges, run), EdgesOf(m.dependencyEdges, run))
  }

  lemma SameLookups<K, V>(x: map<K, V>, y: map<K, V>)
    requires forall k :: k in x.Keys + y.Keys ==> Lookup(x, k) == Lookup(y, k)
    ensures x == y
  {
    forall k | k in x.Keys + y.Keys ensures k in x && k in y && x[k] == y[k] {
      assert Lookup(x, k) == Lookup(y, k);
    }
  }

  lemma Differs<K, V>(x: map<K, V>, y: map<K, V>) returns (k: K)
    requires x != y
    ensures k in x.Keys + y.Keys && Lookup(x, k) != Lookup(y, k)
  {
    if forall k :: k in x.Keys + y.Keys ==> Lookup(x, k) == Lookup(y, k) {
      SameLookups(x, y);
    }
    k :| k in x.Keys + y.Keys && Lookup(x, k) != Lookup(y, k);
  }

  lemma SetsDiffer<T>(x: set<T>, y: set<T>) returns (t: T)
    requires x != y
    ensures (t in x) != (t in y)
  {
    if x <= y {
      t :| t in y && t !in x;
    } else {
      t :| t in x && t !in y;
    }
  }

  lemma ExecutionsChanged(a: map<RowId, Execution>, b: map<RowId, Execution>, run: RunId)
    ensures run in ChangedOwners(a, b, (e: Execution) => e.taskRunId) <==> ExecutionsOf(a, run) != ExecutionsOf(b, run)
  {
    var x, y := ExecutionsOf(a, run), ExecutionsOf(b, run);
    if x != y {
      var k := Differs(x, y);
      assert k in ChangedKeys(a, b);
    }
    forall k | k in ChangedKeys(a, b) && ((k in a && a[k].taskRunId == run) || (k in b && b[k].taskRunId == run))
      ensures Lookup(x, k) != Lookup(y, k)
    {
    }
  }

  lemma NodesChanged(a: map<RowId, AgentNode>, b: map<RowId, AgentNode>, run: RunId)
    ensures run in ChangedOwners(a, b, (n: AgentNode) => n.taskRunId) <==> NodesOf(a, run) != NodesOf(b, run)
  {
    var x, y := NodesOf(a, run), NodesOf(b, run);
    if x != y {
      var k := Differs(x, y);
      assert k in ChangedKeys(a, b);
    }
    forall k | k in ChangedKeys(a, b) && ((k in a && a[k].taskRunId == run) || (k in b && b[k].taskRunId == run))
      ensures Lookup(x, k) != Lookup(y, k)
    {
    }
  }

  lemma KeysChanged(a: map<RunKey, RunId>, b: map<RunKey, RunId>, run: RunId)
    ensures run in ChangedOwners(a, b, (r: RunId) => r) <==> KeysOf(a, run) != KeysOf(b, run)
  {
    var x, y := KeysOf(a, run), KeysOf(b, run);
    if x != y {
      var k := SetsDiffer(x, y);
      assert k in ChangedKeys(a, b);
    }
    forall k | k in ChangedKeys(a, b)
        && ((k in a && a[k] == run) || (k in b && b[k] == run)) ensures (k in x) != (k in y) {
    }
  }

  lemma EdgesChanged(a: set<Edge>, b: set<Edge>, run: RunId)
    ensures run in ChangedEndpoints(a, b) <==> EdgesOf(a, run) != EdgesOf(b, run)
  {
    var x, y := EdgesOf(a, run), EdgesOf(b, run);
    if x != y {
      var e := SetsDiffer(x, y);
      assert e in (a - b) + (b - a);
    }
    forall e | e in (a - b) + (b - a) && (e.src == run || e.dst == run) ensures (e in x) != (e in y) {
    }
  }

  lemma KeyChanged<V>(a: map<RunId, V>, b: map<RunId, V>, run: RunId)
    ensures run in ChangedKeys(a, b) <==> Lookup(a, run) != Lookup(b, run)
  {
  }

  lemma TablesChanged(m: Model, before: Model, run: RunId)
    ensures run !in ChangedInTables(m, before)
       <==> (&& Lookup(m.taskRuns, run) == Lookup(before.taskRuns, run)
             && Lookup(m.history, run) == Lookup(before.history, run)
             && Lookup(m.rateTotals, run) == Lookup(before.rateTotals, run)
             && Lookup(m.rateCursors, run) == Lookup(before.rateCursors, run)
             && Lookup(m.telemetry, run) == Lookup(before.telemetry, run)
             && Lookup(m.runKinds, run) == Lookup(before.runKinds, run))
  {
    KeyChanged(m.taskRuns, before.taskRuns, run);
    KeyChanged(m.history, before.history, run);
    KeyChanged(m.rateTotals, before.rateTotals, run);
    KeyChanged(m.rateCursors, before.rateCursors, run);
    KeyChanged(m.telemetry, before.telemetry, run);
    KeyChanged(m.runKinds, before.runKinds, run);
  }

  lemma RowsChanged(m: Model, before: Model, run: RunId)
    ensures run !in ChangedInRows(m, before)
       <==> && KeysOf(m.keyOwner, run) == KeysOf(before.keyOwner, run)
            && ExecutionsOf(m.executions, run) == ExecutionsOf(before.executions, run)
            && NodesOf(m.agentNodes, run) == NodesOf(before.agentNodes, run)
            && EdgesOf(m.executionEdges, run) == EdgesOf(before.executionEdges, run)
            && EdgesOf(m.dependencyEdges, run) == EdgesOf(before.dependencyEdges, run)
  {
    ExecutionsChanged(m.executions, before.executions, run);
    NodesChanged(m.agentNodes, before.agentNodes, run);
    EdgesChanged(m.executionEdges, before.executionEdges, run);
    EdgesChanged(m.dependencyEdges, before.dependencyEdges, run);
    KeysChanged(m.keyOwner, before.keyOwner, run);
  }

  /** The diff reports exactly the runs whose rows differ, on either side of any change. */
  lemma ChangedExactly(m: Model, before: Model, run: RunId)
    ensures run in Changed(m, before) <==> RowsOf(m, run) != RowsOf(before, run)
  {
    TablesChanged(m, before, run);
    RowsChanged(m, before, run);
  }

  lemma CaptureFromRows(m: Model, before: Model, run: RunId)
    requires RowsOf(m, run) == RowsOf(before, run)
    ensures Captured(m, run) == Captured(before, run)
  {
  }

  /** Frame theorem: a run the diff does not report has the same capture in both models. */
  lemma UnreportedRunsAreUnchanged(m: Model, before: Model, run: RunId)
    requires run !in Changed(m, before)
    ensures Captured(m, run) == Captured(before, run)
  {
    ChangedExactly(m, before, run);
    CaptureFromRows(m, before, run);
  }
}
