/** The status read model and the rate activity, said of the rows of the model themselves. */
module StatusMeaning {
  import opened Types
  import opened Entities
  import opened Status

  // ----- rows

  ghost predicate OfPane(m: Model, run: RunId, pane: RowId, x: RowId) {
    x in m.executions && m.executions[x].taskRunId == run && m.executions[x].paneId == pane
  }

  /**
   * Of the run's executions in the pane, the one with the least identifier among those not ended, if there are such.
   */
  ghost predicate IsCurrent(m: Model, run: RunId, pane: RowId, x: RowId) {
    && OfPane(m, run, pane, x)
    && forall y :: OfPane(m, run, pane, y) ==>
         if m.executions[x].state.Ended? == m.executions[y].state.Ended? then x <= y else m.executions[y].state.Ended?
  }

  /** Nothing but an unknown or final state, and no activity within the window; the age is a signed 64-bit number. */
  predicate IsStale(a: AgentNode, t: Timing) {
    && (a.state == None || a.state == Some(Unknown) || a.state == Some(Ended))
    && a.lastActivityAtMs.Some?
    && var age := t.nowMs - a.lastActivityAtMs.value;
       (if age > I64_MAX then I64_MAX else if age < I64_MIN then I64_MIN else age) >= t.headlessInactivityMs
  }

  /** The provider that the key of the agent's run names, if it names one, is the agent's own. */
  predicate IsOfProvider(m: Model, a: AgentNode) {
    a.taskRunId in m.taskRuns ==>
      match m.taskRuns[a.taskRunId].key
      case Native(provider, _) => provider == a.provider
      case NativePath(provider, _) => provider == a.provider
      case _ => true
  }

  ghost predicate IsRoot(m: Model, t: Timing, run: RunId, x: RowId) {
    && x in m.agentNodes && m.agentNodes[x].taskRunId == run && m.agentNodes[x].parentAgentNodeId == None
    && m.agentNodes[x].lastEventKind != Some("lane_live_line")
    && !IsStale(m.agentNodes[x], t) && IsOfProvider(m, m.agentNodes[x])
  }

  /** The agent's exact native session resolves to the run. */
  ghost predicate IsNative(m: Model, run: RunId, x: RowId) {
    && x in m.agentNodes && m.agentNodes[x].lastEventKind != Some("lane_live_line")
    && exists sid :: sid != "" && m.agentNodes[x].nativeSessionId == Some(sid)
         && Native(m.agentNodes[x].provider, sid) in m.keyOwner
         && m.keyOwner[Native(m.agentNodes[x].provider, sid)] == run
  }

  /** Active no later, an agent never active before all others, and on a tie with the lesser identifier. */
  ghost predicate NotNewer(m: Model, y: RowId, x: RowId)
    requires x in m.agentNodes && y in m.agentNodes
  {
    match (m.agentNodes[y].lastActivityAtMs, m.agentNodes[x].lastActivityAtMs)
    case (None, None) => y <= x
    case (None, Some(_)) => true
    case (Some(_), None) => false
    case (Some(b), Some(a)) => b < a || (b == a && y <= x)
  }

  ghost predicate IsNewestRoot(m: Model, t: Timing, run: RunId, x: RowId) {
    IsRoot(m, t, run, x) && forall y :: IsRoot(m, t, run, y) ==> NotNewer(m, y, x)
  }

  ghost predicate IsNewestNative(m: Model, run: RunId, x: RowId) {
    IsNative(m, run, x) && forall y :: IsNative(m, run, y) ==> NotNewer(m, y, x)
  }

  // ----- the read model shows them

  predicate Covers(filter: Option<RunId>, run: RunId) { filter == None || filter == Some(run) }

  lemma FeedsExecution(m: Model, filter: Option<RunId>, run: RunId, pane: RowId, x: RowId)
    requires Covers(filter, run)
    ensures x in ExecutionFeed(m, filter) && ExecutionFeed(m, filter)[x] == (run, pane) <==> OfPane(m, run, pane, x)
  {
  }

  lemma LeastIsCurrent(m: Model, filter: Option<RunId>, run: RunId, pane: RowId, x: RowId)
    requires m.WellKeyed() && Covers(filter, run)
    ensures IsLeast(m.executions, ExecutionFeed(m, filter), (run, pane), x) <==> IsCurrent(m, run, pane, x)
  {
    forall y ensures y in ExecutionFeed(m, filter) && ExecutionFeed(m, filter)[y] == (run, pane)
                     <==> OfPane(m, run, pane, y)
    {
      FeedsExecution(m, filter, run, pane, y);
    }
  }

  lemma SelectionIsCurrent(m: Model, filter: Option<RunId>, selected: map<(RunId, RowId), Candidate>, run: RunId,
                           pane: RowId)
    requires m.WellKeyed() && SelectsLeast(m.executions, ExecutionFeed(m, filter), selected) && Covers(filter, run)
    ensures (run, pane) in selected <==> exists x :: OfPane(m, run, pane, x)
    ensures (run, pane) in selected ==> exists x :: IsCurrent(m, run, pane, x)
    ensures forall x :: IsCurrent(m, run, pane, x)
              ==> (run, pane) in selected && selected[(run, pane)].state == m.executions[x].state
  {
    var feed := ExecutionFeed(m, filter);
    forall x ensures x in feed && feed[x] == (run, pane) <==> OfPane(m, run, pane, x) {
      FeedsExecution(m, filter, run, pane, x);
    }
    assert (run, pane) in selected <==> Fed(feed, (run, pane));
    if (run, pane) in selected {
      var y :| IsLeast(m.executions, feed, (run, pane), y) && selected[(run, pane)] == CandidateOf(m.executions[y]);
      LeastIsCurrent(m, filter, run, pane, y);
      forall x | IsCurrent(m, run, pane, x) ensures x == y {
        LeastIsCurrent(m, filter, run, pane, x);
        LeastIsUnique(m, feed, (run, pane), x, y);
      }
    }
  }

  /** A pane of the run is shown exactly when some execution is in it, and shows its current one. */
  lemma PanesShowCurrent(m: Model, t: Timing, filter: Option<RunId>, r: ReadModel, run: RunId, pane: RowId)
    requires m.WellKeyed() && Describes(m, t, filter, r) && Covers(filter, run)
    ensures run in r.paneExecutions && pane in r.paneExecutions[run] <==> exists x :: OfPane(m, run, pane, x)
    ensures forall x :: IsCurrent(m, run, pane, x) ==>
              run in r.paneExecutions && pane in r.paneExecutions[run]
              && r.paneExecutions[run][pane] == m.executions[x].state
    ensures run in r.paneExecutions && pane in r.paneExecutions[run] ==> exists x :: IsCurrent(m, run, pane, x)
  {
    var selected :| SelectsLeast(m.executions, ExecutionFeed(m, filter), selected)
                    && Nested(selected, r.paneExecutions);
    SelectionIsCurrent(m, filter, selected, run, pane);
  }

  lemma FeedsRoot(m: Model, t: Timing, filter: Option<RunId>, run: RunId, x: RowId)
    requires Covers(filter, run)
    ensures x in RootFeed(m, t, filter) && RootFeed(m, t, filter)[x] == run <==> IsRoot(m, t, run, x)
  {
    if x in m.agentNodes {
      var a := m.agentNodes[x];
      assert DisplayStale(a, t) <==> IsStale(a, t);
      assert ForeignProvider(m, a) <==> !IsOfProvider(m, a);
    }
  }

  lemma OlderIsNotNewer(m: Model, x: RowId, y: RowId)
    requires m.WellKeyed() && x in m.agentNodes && y in m.agentNodes
    ensures !Older(EvidenceOf(m.agentNodes[x]), EvidenceOf(m.agentNodes[y])) <==> NotNewer(m, y, x)
  {
  }

  /** A run has root evidence exactly when it has a root, and the evidence is that of the newest. */
  lemma RootsShowNewest(m: Model, t: Timing, filter: Option<RunId>, r: ReadModel, run: RunId)
    requires m.WellKeyed() && Describes(m, t, filter, r) && Covers(filter, run)
    ensures run in r.rootAgents <==> exists x :: IsRoot(m, t, run, x)
    ensures run in r.rootAgents ==>
              exists x :: IsNewestRoot(m, t, run, x) && r.rootAgents[run] == EvidenceOf(m.agentNodes[x])
  {
    var feed := RootFeed(m, t, filter);
    forall x ensures x in feed && feed[x] == run <==> IsRoot(m, t, run, x) { FeedsRoot(m, t, filter, run, x); }
    assert run in r.rootAgents <==> Fed(feed, run);
    if run in r.rootAgents {
      var x :| IsNewest(m.agentNodes, feed, run, x) && r.rootAgents[run] == EvidenceOf(m.agentNodes[x]);
      forall y | IsRoot(m, t, run, y) ensures NotNewer(m, y, x) { OlderIsNotNewer(m, x, y); }
      assert IsNewestRoot(m, t, run, x);
    }
  }

  lemma FeedsNative(m: Model, run: RunId, x: RowId)
    ensures x in NativeFeed(m, None) && NativeFeed(m, None)[x] == run <==> IsNative(m, run, x)
  {
  }

  /** The same for the evidence by exact native session, which the full projection gathers. */
  lemma NativesShowNewest(m: Model, t: Timing, r: ReadModel, run: RunId)
    requires m.WellKeyed() && Describes(m, t, None, r)
    ensures run in r.durableNativeAgents <==> exists x :: IsNative(m, run, x)
    ensures run in r.durableNativeAgents ==>
              exists x :: IsNewestNative(m, run, x) && r.durableNativeAgents[run] == EvidenceOf(m.agentNodes[x])
  {
    var feed := NativeFeed(m, None);
    forall x ensures x in feed && feed[x] == run <==> IsNative(m, run, x) { FeedsNative(m, run, x); }
    assert run in r.durableNativeAgents <==> Fed(feed, run);
    if run in r.durableNativeAgents {
      var x :| IsNewest(m.agentNodes, feed, run, x) && r.durableNativeAgents[run] == EvidenceOf(m.agentNodes[x]);
      forall y | IsNative(m, run, y) ensures NotNewer(m, y, x) { OlderIsNotNewer(m, x, y); }
      assert IsNewestNative(m, run, x);
    }
  }

  // ----- the rate activity

  /** The pane reports that it works, or reports nothing and the execution, which has not ended, works. */
  ghost predicate WorksInPane(m: Model, pane: RowId, x: RowId)
    requires x in m.executions
  {
    && !m.executions[x].state.Ended?
    && if pane in m.paneStatuses then m.paneStatuses[pane] == PaneWorking else m.executions[x].state == Working
  }

  ghost predicate HasPane(m: Model, run: RunId) { exists pane, x :: OfPane(m, run, pane, x) }

  ghost predicate SomePaneWorks(m: Model, run: RunId) {
    exists pane, x :: IsCurrent(m, run, pane, x) && WorksInPane(m, pane, x)
  }

  ghost predicate HasRoot(m: Model, t: Timing, run: RunId) { exists x :: IsRoot(m, t, run, x) }

  ghost predicate NewestRootWorks(m: Model, t: Timing, run: RunId) {
    exists x :: IsNewestRoot(m, t, run, x) && m.agentNodes[x].state == Some(Working)
  }

  ghost predicate RunsOn(m: Model, run: TaskRun) {
    run.state == Running && !(run.runId in m.history && m.history[run.runId].nativeSessionEnd.Some?)
  }

  /**
   * A run works when it is running, without an end of its native session, and: with executions, some pane's current one
   * works; else, with root agents, the newest is working; else always.
   */
  ghost predicate IsWorking(m: Model, t: Timing, run: TaskRun) {
    && RunsOn(m, run)
    && if HasPane(m, run.runId) then SomePaneWorks(m, run.runId)
       else if HasRoot(m, t, run.runId) then NewestRootWorks(m, t, run.runId)
       else true
  }

  lemma PaneAnswers(m: Model, t: Timing, filter: Option<RunId>, r: ReadModel, run: RunId)
    requires m.WellKeyed() && Describes(m, t, filter, r) && Covers(filter, run) && run in r.paneExecutions
    ensures HasPane(m, run)
    ensures (exists pane :: pane in r.paneExecutions[run] && PaneWorks(m, pane, r.paneExecutions[run][pane]))
            <==> SomePaneWorks(m, run)
  {
    var selected :| SelectsLeast(m.executions, ExecutionFeed(m, filter), selected)
                    && Nested(selected, r.paneExecutions);
    var some :| some in r.paneExecutions[run];
    PanesShowCurrent(m, t, filter, r, run, some);
    if pane :| pane in r.paneExecutions[run] && PaneWorks(m, pane, r.paneExecutions[run][pane]) {
      PanesShowCurrent(m, t, filter, r, run, pane);
      var x :| IsCurrent(m, run, pane, x);
      assert WorksInPane(m, pane, x);
    }
    if pane, x :| IsCurrent(m, run, pane, x) && WorksInPane(m, pane, x) {
      PanesShowCurrent(m, t, filter, r, run, pane);
      assert PaneWorks(m, pane, r.paneExecutions[run][pane]);
    }
  }

  lemma NoPanes(m: Model, t: Timing, filter: Option<RunId>, r: ReadModel, run: RunId)
    requires m.WellKeyed() && Describes(m, t, filter, r) && Covers(filter, run) && run !in r.paneExecutions
    ensures !HasPane(m, run)
  {
    forall pane, x ensures !OfPane(m, run, pane, x) { PanesShowCurrent(m, t, filter, r, run, pane); }
  }

  lemma OneNewestRoot(m: Model, t: Timing, run: RunId, x: RowId, y: RowId)
    requires IsNewestRoot(m, t, run, x) && IsNewestRoot(m, t, run, y)
    ensures x == y
  {
    assert NotNewer(m, x, y) && NotNewer(m, y, x);
  }

  lemma RootAnswers(m: Model, t: Timing, filter: Option<RunId>, r: ReadModel, run: RunId)
    requires m.WellKeyed() && Describes(m, t, filter, r) && Covers(filter, run) && run in r.rootAgents
    ensures r.rootAgents[run].state == Some(Working) <==> NewestRootWorks(m, t, run)
  {
    RootsShowNewest(m, t, filter, r, run);
    var x :| IsNewestRoot(m, t, run, x) && r.rootAgents[run] == EvidenceOf(m.agentNodes[x]);
    forall y | IsNewestRoot(m, t, run, y) ensures x == y { OneNewestRoot(m, t, run, x, y); }
  }

  lemma PausedOtherwise(m: Model, run: TaskRun)
    ensures AlwaysPaused(m, run) <==> !RunsOn(m, run)
  {
  }

  lemma RootsHere(m: Model, t: Timing, filter: Option<RunId>, r: ReadModel, run: RunId)
    requires m.WellKeyed() && Describes(m, t, filter, r) && Covers(filter, run)
    ensures run in r.rootAgents <==> HasRoot(m, t, run)
  {
    RootsShowNewest(m, t, filter, r, run);
  }

  /** What the read model must say of the run for its answer to be right. */
  ghost predicate AnswersFor(m: Model, t: Timing, r: ReadModel, run: RunId) {
    && (run in r.paneExecutions <==> HasPane(m, run))
    && (run in r.paneExecutions ==>
          ((exists pane :: pane in r.paneExecutions[run] && PaneWorks(m, pane, r.paneExecutions[run][pane]))
           <==> SomePaneWorks(m, run)))
    && (run in r.rootAgents <==> HasRoot(m, t, run))
    && (run in r.rootAgents ==> (r.rootAgents[run].state == Some(Working) <==> NewestRootWorks(m, t, run)))
  }

  lemma ReadModelAnswers(m: Model, t: Timing, filter: Option<RunId>, r: ReadModel, run: RunId)
    requires m.WellKeyed() && Describes(m, t, filter, r) && Covers(filter, run)
    ensures AnswersFor(m, t, r, run)
  {
    if run in r.paneExecutions { PaneAnswers(m, t, filter, r, run); } else { NoPanes(m, t, filter, r, run); }
    RootsHere(m, t, filter, r, run);
    if run in r.rootAgents { RootAnswers(m, t, filter, r, run); }
  }

  lemma AnswerIsRight(m: Model, t: Timing, r: ReadModel, run: TaskRun)
    requires AnswersFor(m, t, r, run.runId)
    ensures RateActivity(r, m, run).RateWorking? <==> IsWorking(m, t, run)
  {
    PausedOtherwise(m, run);
  }

  /** Any projection that covers the run answers that it works exactly when the model says so. */
  lemma WorkingExactly(m: Model, t: Timing, filter: Option<RunId>, r: ReadModel, run: TaskRun)
    requires m.WellKeyed() && Describes(m, t, filter, r) && Covers(filter, run.runId)
    ensures RateActivity(r, m, run).RateWorking? <==> IsWorking(m, t, run)
  {
    ReadModelAnswers(m, t, filter, r, run.runId);
    AnswerIsRight(m, t, r, run);
  }

  method RunRateActivityFromModel(m: Model, t: Timing, run: TaskRun) returns (activity: RunRateActivity)
    requires m.WellKeyed()
    ensures activity.RateWorking? <==> IsWorking(m, t, run)
    ensures forall all :: Describes(m, t, None, all) ==> activity == RateActivity(all, m, run)
  {
    var one := FromModelFiltered(m, t, Some(run.runId));
    activity := RunRateActivityOf(one, m, run);
    WorkingExactly(m, t, Some(run.runId), one, run);
    forall all | Describes(m, t, None, all) ensures activity == RateActivity(all, m, run) {
      FilteredRateAgrees(m, t, run, all, one);
    }
  }
}
