/** The mutable domain model: every method is specified by a transformer of its value. */
module Domain {
  import opened Types
  import opened Entities

  class DomainModel {
    var taskRuns: map<RunId, TaskRun>
    var keyOwner: map<RunKey, RunId>
    var history: map<RunId, RunHistory>
    var rateTotals: map<RunId, RateTotals>
    var rateCursors: map<RunId, RateCursor>
    var telemetry: map<RunId, Telemetry>
    var runKinds: map<RunId, string>
    var executions: map<RowId, Execution>
    var agentNodes: map<RowId, AgentNode>
    var executionEdges: set<Edge>
    var dependencyEdges: set<Edge>
    var publications: map<RunId, Publication>
    var paneStatuses: map<RowId, PaneAgentStatus>
    var rateSaturations: nat

    function State(): Model
      reads this
    {
      Model(taskRuns, keyOwner, history, rateTotals, rateCursors, telemetry, runKinds, executions, agentNodes,
            executionEdges, dependencyEdges, publications, paneStatuses, rateSaturations)
    }

    /** A copy holding the given state. */
    constructor FromState(m: Model)
      ensures State() == m
    {
      taskRuns, keyOwner, history := m.taskRuns, m.keyOwner, m.history;
      rateTotals, rateCursors, telemetry, runKinds := m.rateTotals, m.rateCursors, m.telemetry, m.runKinds;
      executions, agentNodes := m.executions, m.agentNodes;
      executionEdges, dependencyEdges := m.executionEdges, m.dependencyEdges;
      publications, paneStatuses, rateSaturations := m.publications, m.paneStatuses, m.rateSaturations;
    }

    method InsertTaskRun(t: TaskRun)
      modifies `taskRuns, `history, `keyOwner
      ensures taskRuns == old(taskRuns)[t.runId := t]
      ensures history == HistoryWith(old(history), t.runId)
      ensures keyOwner == OwnersWith(old(taskRuns), old(keyOwner), t)
    {
      var replaced := if t.runId in taskRuns then Some(taskRuns[t.runId]) else None;
      taskRuns := taskRuns[t.runId := t];
      if t.runId !in history { history := history[t.runId := DEFAULT_HISTORY]; }
      if replaced.Some? && replaced.value.key in keyOwner && keyOwner[replaced.value.key] == t.runId {
        keyOwner := keyOwner - {replaced.value.key};
      }
      keyOwner := keyOwner[t.key := t.runId];
    }

    method InsertTaskRunAlias(key: RunKey, run: RunId)
      modifies `keyOwner
      ensures keyOwner == old(keyOwner)[key := run]
    {
      keyOwner := keyOwner[key := run];
    }

    method FoldTelemetry(survivor: RunId, absorbed: RunId)
      modifies `telemetry
      ensures telemetry == MergedTelemetry(old(telemetry), survivor, absorbed)
    {
      if absorbed !in telemetry { return; }
      var taken := telemetry[absorbed];
      telemetry := telemetry - {absorbed};
      telemetry := telemetry[survivor := if survivor in telemetry then FoldedTelemetry(telemetry[survivor], taken)
                             else taken];
    }

    method FoldRunKind(survivor: RunId, absorbed: RunId)
      modifies `runKinds
      ensures runKinds == MergedKinds(old(runKinds), survivor, absorbed)
    {
      if absorbed !in runKinds { return; }
      var taken := runKinds[absorbed];
      runKinds := runKinds - {absorbed};
      if survivor !in runKinds { runKinds := runKinds[survivor := taken]; }
    }

    method FoldHistory(survivor: RunId, absorbed: RunId)
      modifies `history, `publications
      ensures history == MergedHistory(old(history), survivor, absorbed)
      ensures publications == Redirected(old(publications), survivor, absorbed)
    {
      var taken := HistoryAt(history, absorbed);
      history := history - {absorbed};
      history := history[survivor := FoldedHistory(HistoryAt(history, survivor), taken)];
      RedirectPublications(survivor, absorbed);
    }

    method RedirectPublications(survivor: RunId, absorbed: RunId)
      modifies `publications
      ensures publications == Redirected(old(publications), survivor, absorbed)
    {
      var rest := publications.Keys;
      while rest != {}
        invariant rest <= old(publications).Keys == publications.Keys
        invariant forall r :: r in publications ==>
          publications[r] == if r in rest then old(publications)[r]
              else Redirect(old(publications)[r], survivor, absorbed)
      {
        var r :| r in rest;
        if publications[r].canonicalRunId == absorbed {
          publications := publications[r := publications[r].(canonicalRunId := survivor)];
        }
        rest := rest - {r};
      }
    }

    method InstallHistoryPublication(p: Publication) returns (installed: bool)
      modifies `publications
      ensures publications == Installed(old(publications), p) && (installed <==> p.taskRun.runId !in old(publications))
    {
      installed := p.taskRun.runId !in publications;
      if installed { publications := publications[p.taskRun.runId := p]; }
    }

    /** Drops the before-images of a run whose history is complete, and says whether there were any. */
    method ReleaseHistoryPublications(run: RunId) returns (released: bool)
      modifies `publications
      ensures publications == Unreleased(old(publications), run) && (released <==> publications != old(publications))
    {
      var rest := publications.Keys;
      released := false;
      while rest != {}
        invariant rest <= old(publications).Keys
        invariant publications == map r | r in old(publications)
                  && (r in rest || old(publications)[r].canonicalRunId != run)
                                  :: old(publications)[r]
        invariant released <==> publications != old(publications)
      {
        var r :| r in rest;
        rest := rest - {r};
        if publications[r].canonicalRunId == run {
          publications := publications - {r};
          released := true;
          assert r !in publications;
        }
      }
    }

    method FoldRateTotals(survivor: RunId, absorbed: RunId)
      modifies `rateTotals, `rateSaturations
      ensures rateTotals == MergedTotals(old(rateTotals), survivor, absorbed)
      ensures rateSaturations == old(rateSaturations) + if TotalsSaturate(old(rateTotals), survivor, absorbed) then 1
              else 0
    {
      if absorbed !in rateTotals { return; }
      var delta := rateTotals[absorbed];
      rateTotals := rateTotals - {absorbed};
      var mine := TotalsAt(rateTotals, survivor);
      rateTotals := rateTotals[survivor := mine.Plus(delta)];
      if mine.Saturates(delta) { rateSaturations := rateSaturations + 1; }
    }

    method RemoveTaskRunRecord(run: RunId)
      modifies `history, `rateTotals, `rateCursors, `taskRuns
      ensures history == Drop(old(history), run) && rateTotals == Drop(old(rateTotals), run)
      ensures rateCursors == Drop(old(rateCursors), run) && taskRuns == Drop(old(taskRuns), run)
    {
      history := history - {run};
      rateTotals := rateTotals - {run};
      rateCursors := rateCursors - {run};
      taskRuns := taskRuns - {run};
    }

    method ReassignExecutions(survivor: RunId, absorbed: RunId)
      modifies `executions
      ensures executions == ReassignedExecutions(old(executions), survivor, absorbed)
    {
      var rest := executions.Keys;
      while rest != {}
        invariant rest <= old(executions).Keys == executions.Keys
        invariant forall i :: i in executions ==>
          executions[i] == if i in rest then old(executions)[i]
              else ReassignedExecution(old(executions)[i], survivor, absorbed)
      {
        var i :| i in rest;
        if executions[i].taskRunId == absorbed {
          executions := executions[i := executions[i].(taskRunId := survivor)];
        }
        rest := rest - {i};
      }
    }

    method ReassignAgentNodes(survivor: RunId, absorbed: RunId)
      modifies `agentNodes
      ensures agentNodes == ReassignedNodes(old(agentNodes), survivor, absorbed)
    {
      var rest := agentNodes.Keys;
      while rest != {}
        invariant rest <= old(agentNodes).Keys == agentNodes.Keys
        invariant forall i :: i in agentNodes ==>
          agentNodes[i] == if i in rest then old(agentNodes)[i]
              else ReassignedNode(old(agentNodes)[i], survivor, absorbed)
      {
        var i :| i in rest;
        if agentNodes[i].taskRunId == absorbed {
          agentNodes := agentNodes[i := agentNodes[i].(taskRunId := survivor)];
        }
        rest := rest - {i};
      }
    }

    method InsertAliases(keys: set<RunKey>, run: RunId)
      modifies `keyOwner
      ensures keyOwner == OwnersWithAliases(old(keyOwner), keys, run)
    {
      var rest := keys;
      while rest != {}
        invariant rest <= keys && keyOwner.Keys == old(keyOwner).Keys + (keys - rest)
        invariant forall k :: k in keyOwner ==> keyOwner[k] == if k in keys - rest then run else old(keyOwner)[k]
      {
        var k :| k in rest;
        InsertTaskRunAlias(k, run);
        rest := rest - {k};
      }
    }
  }
}
