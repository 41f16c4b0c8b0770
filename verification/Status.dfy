/** The status read model: one execution per pane, one root agent per run, and the rate activity read from them. */
module Status {
  import opened Types
  import opened Entities

  const LIVE_LINE_EVENT_KIND := "lane_live_line"

  datatype Evidence = Evidence(state: Option<ExecState>, lastActivityAtMs: Option<int>, agentNodeId: RowId)

  datatype Candidate = Candidate(terminal: bool, executionId: RowId, state: ExecState)

  datatype ReadModel = ReadModel(
    paneExecutions: map<RunId, map<RowId, ExecState>>,
    rootAgents: map<RunId, Evidence>,
    durableNativeAgents: map<RunId, Evidence>)

  // ----- what feeds the selections

  function EvidenceOf(a: AgentNode): Evidence {
    Evidence(a.state, a.lastActivityAtMs, a.agentNodeId)
  }

  function CandidateOf(x: Execution): Candidate {
    Candidate(x.state.IsTerminal(), x.executionId, x.state)
  }

  predicate Wanted(filter: Option<RunId>, run: RunId) {
    filter.None? || filter.value == run
  }

  function SaturatingSub(a: int, b: int): int {
    Max(I64_MIN, Min(a - b, I64_MAX))
  }

  predicate DisplayStale(a: AgentNode, t: Timing) {
    && (a.state.None? || a.state.value.Unknown? || a.state.value.Ended?)
    && a.lastActivityAtMs.Some? && SaturatingSub(t.nowMs, a.lastActivityAtMs.value) >= t.headlessInactivityMs
  }

  function RunProvider(run: TaskRun): Option<Provider> {
    match run.key
    case Native(provider, _) => Some(provider)
    case NativePath(provider, _) => Some(provider)
    case Controller(_) => None
    case Provisional(_, _, _) => None
  }

  predicate IsLiveLine(a: AgentNode) {
    a.lastEventKind == Some(LIVE_LINE_EVENT_KIND)
  }

  predicate ForeignProvider(m: Model, a: AgentNode) {
    && a.taskRunId in m.taskRuns && RunProvider(m.taskRuns[a.taskRunId]).Some?
    && RunProvider(m.taskRuns[a.taskRunId]).value != a.provider
  }

  predicate IsRootEvidence(m: Model, a: AgentNode, t: Timing) {
    a.parentAgentNodeId.None? && !IsLiveLine(a) && !DisplayStale(a, t) && !ForeignProvider(m, a)
  }

  /** The run an agent's exact native session resolves to. */
  function NativeTarget(m: Model, a: AgentNode): Option<RunId> {
    if IsLiveLine(a) || a.nativeSessionId.None? || a.nativeSessionId.value == "" then None
    else
      var key := Native(a.provider, a.nativeSessionId.value);
      if key in m.keyOwner then Some(m.keyOwner[key]) else None
  }

  function ExecutionFeed(m: Model, filter: Option<RunId>): map<RowId, (RunId, RowId)> {
    map x | x in m.executions
        && Wanted(filter, m.executions[x].taskRunId) :: (m.executions[x].taskRunId, m.executions[x].paneId)
  }

  function RootFeed(m: Model, t: Timing, filter: Option<RunId>): map<RowId, RunId> {
    map x | x in m.agentNodes && Wanted(filter, m.agentNodes[x].taskRunId) && IsRootEvidence(m, m.agentNodes[x], t)
      :: m.agentNodes[x].taskRunId
  }

  /** Durable native evidence is gathered for the unfiltered projection only. */
  function NativeFeed(m: Model, filter: Option<RunId>): map<RowId, RunId> {
    map x | x in m.agentNodes && filter.None?
        && NativeTarget(m, m.agentNodes[x]).Some? :: NativeTarget(m, m.agentNodes[x]).value
  }

  // ----- selecting the newest evidence of each run

  predicate OptionBefore(a: Option<int>, b: Option<int>) {
    b.Some? && (a.None? || a.value < b.value)
  }

  predicate Older(a: Evidence, b: Evidence) {
    OptionBefore(a.lastActivityAtMs, b.lastActivityAtMs)
        || (a.lastActivityAtMs == b.lastActivityAtMs && a.agentNodeId < b.agentNodeId)
  }

  ghost predicate IsNewest(nodes: map<RowId, AgentNode>, feed: map<RowId, RunId>, run: RunId, x: RowId) {
    && x in feed && x in nodes && feed[x] == run
    && forall y :: y in feed && y in nodes && feed[y] == run ==> !Older(EvidenceOf(nodes[x]), EvidenceOf(nodes[y]))
  }

  ghost predicate Fed<K>(feed: map<RowId, K>, k: K) {
    exists x :: x in feed && feed[x] == k
  }

  /** One entry for every run that is fed, holding the newest of its evidence. */
  ghost predicate SelectsNewest(nodes: map<RowId, AgentNode>, feed: map<RowId, RunId>, selected: map<RunId, Evidence>) {
    && (forall run :: run in selected <==> Fed(feed, run))
    && forall run :: run in selected
         ==> exists x :: IsNewest(nodes, feed, run, x) && selected[run] == EvidenceOf(nodes[x])
  }

  function WithEvidence(selected: map<RunId, Evidence>, run: RunId, e: Evidence): map<RunId, Evidence> {
    if run in selected && !Older(selected[run], e) then selected else selected[run := e]
  }

  lemma OlderIsTransitive(a: Evidence, b: Evidence, c: Evidence)
    ensures Older(a, b) && Older(b, c) ==> Older(a, c)
    ensures !Older(a, b) && !Older(b, c) ==> !Older(a, c)
    ensures a.agentNodeId != b.agentNodeId ==> Older(a, b) != Older(b, a)
  {
  }

  lemma FeedOne(nodes: map<RowId, AgentNode>, feed: map<RowId, RunId>, selected: map<RunId, Evidence>, x: RowId,
                run: RunId)
    requires SelectsNewest(nodes, feed, selected) && x !in feed && x in nodes
    ensures SelectsNewest(nodes, feed[x := run], WithEvidence(selected, run, EvidenceOf(nodes[x])))
  {
    var e, more, next := EvidenceOf(nodes[x]), feed[x := run], WithEvidence(selected, run, EvidenceOf(nodes[x]));
    forall r ensures r in next <==> Fed(more, r) {
      if r == run { assert more[x] == run; }
      if Fed(feed, r) {
        var y :| y in feed && feed[y] == r;
        assert more[y] == r;
      }
    }
    forall r | r in next ensures exists y :: IsNewest(nodes, more, r, y) && next[r] == EvidenceOf(nodes[y]) {
      if r in selected {
        var y :| IsNewest(nodes, feed, r, y) && selected[r] == EvidenceOf(nodes[y]);
        var best := if r == run && Older(selected[r], e) then x else y;
        forall z | z in more && z in nodes
            && more[z] == r ensures !Older(EvidenceOf(nodes[best]), EvidenceOf(nodes[z])) {
          OlderIsTransitive(e, selected[r], EvidenceOf(nodes[z]));
          OlderIsTransitive(selected[r], e, EvidenceOf(nodes[z]));
          OlderIsTransitive(e, e, e);
        }
        assert IsNewest(nodes, more, r, best);
      } else {
        assert IsNewest(nodes, more, r, x);
      }
    }
  }

  // ----- selecting the least execution of each pane

  predicate Precedes(a: Candidate, b: Candidate) {
    (!a.terminal && b.terminal) || (a.terminal == b.terminal && a.executionId < b.executionId)
  }

  ghost predicate IsLeast(executions: map<RowId, Execution>, feed: map<RowId, (RunId, RowId)>, k: (RunId, RowId),
                          x: RowId) {
    && x in feed && x in executions && feed[x] == k
    && forall y :: y in feed && y in executions && feed[y] == k
         ==> !Precedes(CandidateOf(executions[y]), CandidateOf(executions[x]))
  }

  ghost predicate SelectsLeast(executions: map<RowId, Execution>, feed: map<RowId, (RunId, RowId)>,
                               selected: map<(RunId, RowId), Candidate>) {
    && (forall k :: k in selected <==> Fed(feed, k))
    && forall k :: k in selected
         ==> exists x :: IsLeast(executions, feed, k, x) && selected[k] == CandidateOf(executions[x])
  }

  function WithCandidate(selected: map<(RunId, RowId), Candidate>, k: (RunId, RowId),
                         c: Candidate): map<(RunId, RowId), Candidate> {
    if k in selected && !Precedes(c, selected[k]) then selected else selected[k := c]
  }

  lemma PrecedesIsTransitive(a: Candidate, b: Candidate, c: Candidate)
    ensures Precedes(a, b) && Precedes(b, c) ==> Precedes(a, c)
    ensures !Precedes(a, b) && !Precedes(b, c) ==> !Precedes(a, c)
    ensures a.executionId != b.executionId ==> Precedes(a, b) != Precedes(b, a)
  {
  }

  lemma FeedOneExecution(executions: map<RowId, Execution>, feed: map<RowId, (RunId, RowId)>,
                         selected: map<(RunId, RowId), Candidate>, x: RowId, k: (RunId, RowId))
    requires SelectsLeast(executions, feed, selected) && x !in feed && x in executions
    ensures SelectsLeast(executions, feed[x := k], WithCandidate(selected, k, CandidateOf(executions[x])))
  {
    var c, more, next := CandidateOf(executions[x]), feed[x := k],
        WithCandidate(selected, k, CandidateOf(executions[x]));
    forall r ensures r in next <==> Fed(more, r) {
      if r == k { assert more[x] == k; }
      if Fed(feed, r) {
        var y :| y in feed && feed[y] == r;
        assert more[y] == r;
      }
    }
    forall r | r in next ensures exists y :: IsLeast(executions, more, r, y) && next[r] == CandidateOf(executions[y]) {
      if r in selected {
        var y :| IsLeast(executions, feed, r, y) && selected[r] == CandidateOf(executions[y]);
        var best := if r == k && Precedes(c, selected[r]) then x else y;
        forall z | z in more && z in executions
            && more[z] == r ensures !Precedes(CandidateOf(executions[z]), CandidateOf(executions[best])) {
          PrecedesIsTransitive(CandidateOf(executions[z]), selected[r], c);
          PrecedesIsTransitive(CandidateOf(executions[z]), c, selected[r]);
          PrecedesIsTransitive(c, c, c);
        }
        assert IsLeast(executions, more, r, best);
      } else {
        assert IsLeast(executions, more, r, x);
      }
    }
  }

  // ----- building the read model

  /** `part` is `whole` on the identifiers already met. */
  ghost predicate Restricts<K(!new)>(part: map<RowId, K>, whole: map<RowId, K>, met: set<RowId>) {
    forall x :: (x in part <==> x in whole && x in met) && (x in part ==> part[x] == whole[x])
  }

  lemma RestrictsMore<K(!new)>(part: map<RowId, K>, whole: map<RowId, K>, met: set<RowId>, x: RowId)
    requires Restricts(part, whole, met) && x !in met
    ensures x !in part
    ensures Restricts(if x in whole then part[x := whole[x]] else part, whole, met + {x})
  {
  }

  method SelectExecutions(m: Model, filter: Option<RunId>) returns (selected: map<(RunId, RowId), Candidate>)
    ensures SelectsLeast(m.executions, ExecutionFeed(m, filter), selected)
  {
    selected := map[];
    var rest := m.executions.Keys;
    ghost var fed: map<RowId, (RunId, RowId)> := map[];
    while rest != {}
      invariant rest <= m.executions.Keys
      invariant Restricts(fed, ExecutionFeed(m, filter), m.executions.Keys - rest)
      invariant SelectsLeast(m.executions, fed, selected)
    {
      var x :| x in rest;
      rest := rest - {x};
      var execution := m.executions[x];
      if Wanted(filter, execution.taskRunId) {
        var k := (execution.taskRunId, execution.paneId);
        FeedOneExecution(m.executions, fed, selected, x, k);
        selected := WithCandidate(selected, k, CandidateOf(execution));
        fed := fed[x := k];
      }
    }
    assert fed == ExecutionFeed(m, filter);
  }

  ghost predicate Nested(selected: map<(RunId, RowId), Candidate>, panes: map<RunId, map<RowId, ExecState>>) {
    && (forall run, pane :: (run in panes && pane in panes[run]) <==> (run, pane) in selected)
    && (forall run :: run in panes ==> exists pane :: pane in panes[run])
    && forall run, pane :: (run, pane) in selected ==> panes[run][pane] == selected[(run, pane)].state
  }

  lemma NestOne(met: map<(RunId, RowId), Candidate>, panes: map<RunId, map<RowId, ExecState>>, k: (RunId, RowId),
                c: Candidate)
    requires Nested(met, panes)
    ensures Nested(met[k := c], panes[k.0 := (if k.0 in panes then panes[k.0] else map[])[k.1 := c.state]])
  {
    var next := panes[k.0 := (if k.0 in panes then panes[k.0] else map[])[k.1 := c.state]];
    forall run | run in next ensures exists pane :: pane in next[run] {
      if run == k.0 { assert k.1 in next[run]; } else {
        var pane :| pane in panes[run];
        assert pane in next[run];
      }
    }
    forall run, pane ensures (run in next && pane in next[run]) <==> (run, pane) in met[k := c] {
      assert (run, pane) == k <==> run == k.0 && pane == k.1;
    }
  }

  method NestByRun(selected: map<(RunId, RowId), Candidate>) returns (panes: map<RunId, map<RowId, ExecState>>)
    ensures Nested(selected, panes)
  {
    panes := map[];
    var rest := selected.Keys;
    ghost var met: map<(RunId, RowId), Candidate> := map[];
    while rest != {}
      invariant rest <= selected.Keys && met.Keys == selected.Keys - rest
      invariant forall k :: k in met ==> met[k] == selected[k]
      invariant Nested(met, panes)
    {
      var k :| k in rest;
      rest := rest - {k};
      var entry := (if k.0 in panes then panes[k.0] else map[])[k.1 := selected[k].state];
      NestOne(met, panes, k, selected[k]);
      panes := panes[k.0 := entry];
      met := met[k := selected[k]];
    }
    assert met == selected;
  }

  method SelectAgents(m: Model, t: Timing, filter: Option<RunId>)
    returns (roots: map<RunId, Evidence>, natives: map<RunId, Evidence>)
    ensures SelectsNewest(m.agentNodes, RootFeed(m, t, filter), roots)
    ensures SelectsNewest(m.agentNodes, NativeFeed(m, filter), natives)
  {
    roots, natives := map[], map[];
    var rest := m.agentNodes.Keys;
    ghost var fedRoots: map<RowId, RunId>, fedNatives: map<RowId, RunId> := map[], map[];
    while rest != {}
      invariant rest <= m.agentNodes.Keys
      invariant Restricts(fedRoots, RootFeed(m, t, filter), m.agentNodes.Keys - rest)
      invariant Restricts(fedNatives, NativeFeed(m, filter), m.agentNodes.Keys - rest)
      invariant SelectsNewest(m.agentNodes, fedRoots, roots)
      invariant SelectsNewest(m.agentNodes, fedNatives, natives)
    {
      var x :| x in rest;
      RestrictsMore(fedRoots, RootFeed(m, t, filter), m.agentNodes.Keys - rest, x);
      RestrictsMore(fedNatives, NativeFeed(m, filter), m.agentNodes.Keys - rest, x);
      assert m.agentNodes.Keys - (rest - {x}) == (m.agentNodes.Keys - rest) + {x};
      rest := rest - {x};
      var agent := m.agentNodes[x];
      var target := NativeTarget(m, agent);
      if filter.None? && target.Some? {
        FeedOne(m.agentNodes, fedNatives, natives, x, target.value);
        natives := WithEvidence(natives, target.value, EvidenceOf(agent));
        fedNatives := fedNatives[x := target.value];
      }
      if Wanted(filter, agent.taskRunId) && IsRootEvidence(m, agent, t) {
        FeedOne(m.agentNodes, fedRoots, roots, x, agent.taskRunId);
        roots := WithEvidence(roots, agent.taskRunId, EvidenceOf(agent));
        fedRoots := fedRoots[x := agent.taskRunId];
      }
    }
    assert fedRoots == RootFeed(m, t, filter) && fedNatives == NativeFeed(m, filter);
  }

  /** Panes show the unique least execution, runs the unique newest agents. */
  ghost predicate Describes(m: Model, t: Timing, filter: Option<RunId>, r: ReadModel) {
    && (exists selected :: SelectsLeast(m.executions, ExecutionFeed(m, filter), selected)
          && Nested(selected, r.paneExecutions))
    && SelectsNewest(m.agentNodes, RootFeed(m, t, filter), r.rootAgents)
    && SelectsNewest(m.agentNodes, NativeFeed(m, filter), r.durableNativeAgents)
  }

  method FromModelFiltered(m: Model, t: Timing, filter: Option<RunId>) returns (r: ReadModel)
    ensures Describes(m, t, filter, r)
  {
    var selected := SelectExecutions(m, filter);
    var panes := NestByRun(selected);
    var roots, natives := SelectAgents(m, t, filter);
    r := ReadModel(panes, roots, natives);
  }

  // ----- rate activity

  datatype RunRateActivity = RateWorking | RatePaused

  predicate PaneWorks(m: Model, pane: RowId, state: ExecState) {
    && !state.IsTerminal()
    && if pane in m.paneStatuses then m.paneStatuses[pane].PaneWorking? else state.Working?
  }

  predicate AlwaysPaused(m: Model, run: TaskRun) {
    || run.state.IsTerminal() || run.state.Queued? || run.state.Blocked?
    || (run.runId in m.history && m.history[run.runId].nativeSessionEnd.Some?)
  }

  ghost function RateActivity(r: ReadModel, m: Model, run: TaskRun): RunRateActivity {
    if AlwaysPaused(m, run) then RatePaused
    else if run.runId in r.paneExecutions then
      var panes := r.paneExecutions[run.runId];
      if exists pane :: pane in panes && PaneWorks(m, pane, panes[pane]) then RateWorking else RatePaused
    else if run.runId in r.rootAgents then
      if r.rootAgents[run.runId].state == Some(Working) then RateWorking else RatePaused
    else RateWorking
  }

  /** Panes are tried in any order until one works. */
  method RunRateActivityOf(r: ReadModel, m: Model, run: TaskRun) returns (activity: RunRateActivity)
    ensures activity == RateActivity(r, m, run)
  {
    if AlwaysPaused(m, run) { return RatePaused; }
    if run.runId in r.paneExecutions {
      var panes := r.paneExecutions[run.runId];
      var rest := panes.Keys;
      while rest != {}
        invariant rest <= panes.Keys
        invariant forall pane :: pane in panes && pane !in rest ==> !PaneWorks(m, pane, panes[pane])
      {
        var pane :| pane in rest;
        rest := rest - {pane};
        if PaneWorks(m, pane, panes[pane]) { return RateWorking; }
      }
      return RatePaused;
    }
    if run.runId in r.rootAgents {
      return if r.rootAgents[run.runId].state == Some(Working) then RateWorking else RatePaused;
    }
    return RateWorking;
  }

  // ----- uniqueness

  /** Of one run, exactly one agent is newest. */
  lemma NewestIsUnique(m: Model, feed: map<RowId, RunId>, run: RunId, a: RowId, b: RowId)
    requires m.WellKeyed() && IsNewest(m.agentNodes, feed, run, a) && IsNewest(m.agentNodes, feed, run, b)
    ensures a == b
  {
    OlderIsTransitive(EvidenceOf(m.agentNodes[a]), EvidenceOf(m.agentNodes[b]), EvidenceOf(m.agentNodes[a]));
  }

  /** Of one pane, exactly one execution is least. */
  lemma LeastIsUnique(m: Model, feed: map<RowId, (RunId, RowId)>, k: (RunId, RowId), x: RowId, y: RowId)
    requires m.WellKeyed() && IsLeast(m.executions, feed, k, x) && IsLeast(m.executions, feed, k, y)
    ensures x == y
  {
    PrecedesIsTransitive(CandidateOf(m.executions[x]), CandidateOf(m.executions[y]), CandidateOf(m.executions[x]));
  }

  lemma SameNewest(m: Model, feed: map<RowId, RunId>, a: map<RunId, Evidence>, b: map<RunId, Evidence>)
    requires m.WellKeyed() && SelectsNewest(m.agentNodes, feed, a) && SelectsNewest(m.agentNodes, feed, b)
    ensures a == b
  {
    forall run | run in a ensures run in b && a[run] == b[run] {
      assert Fed(feed, run);
      var x :| IsNewest(m.agentNodes, feed, run, x) && a[run] == EvidenceOf(m.agentNodes[x]);
      var y :| IsNewest(m.agentNodes, feed, run, y) && b[run] == EvidenceOf(m.agentNodes[y]);
      NewestIsUnique(m, feed, run, x, y);
    }
    assert a.Keys == b.Keys;
  }

  lemma SameLeast(m: Model, feed: map<RowId, (RunId, RowId)>, a: map<(RunId, RowId), Candidate>,
                  b: map<(RunId, RowId), Candidate>)
    requires m.WellKeyed() && SelectsLeast(m.executions, feed, a) && SelectsLeast(m.executions, feed, b)
    ensures a == b
  {
    forall k | k in a ensures k in b && a[k] == b[k] {
      assert Fed(feed, k);
      var x :| IsLeast(m.executions, feed, k, x) && a[k] == CandidateOf(m.executions[x]);
      var y :| IsLeast(m.executions, feed, k, y) && b[k] == CandidateOf(m.executions[y]);
      LeastIsUnique(m, feed, k, x, y);
    }
    assert a.Keys == b.Keys;
  }

  lemma SameNesting(selected: map<(RunId, RowId), Candidate>, a: map<RunId, map<RowId, ExecState>>,
                    b: map<RunId, map<RowId, ExecState>>)
    requires Nested(selected, a) && Nested(selected, b)
    ensures a == b
  {
    forall run | run in a ensures run in b && a[run] == b[run] {
      var pane :| pane in a[run];
      assert (run, pane) in selected;
      forall p ensures p in a[run] <==> p in b[run] { assert (run, p) in selected <==> p in a[run]; }
      forall p | p in a[run] ensures a[run][p] == b[run][p] { assert (run, p) in selected; }
    }
    forall run | run in b ensures run in a {
      var pane :| pane in b[run];
      assert (run, pane) in selected;
    }
    assert a.Keys == b.Keys;
  }

  /** The read model does not depend on the order in which rows are met. */
  lemma ReadModelIsUnique(m: Model, t: Timing, filter: Option<RunId>, a: ReadModel, b: ReadModel)
    requires m.WellKeyed() && Describes(m, t, filter, a) && Describes(m, t, filter, b)
    ensures a == b
  {
    var x :| SelectsLeast(m.executions, ExecutionFeed(m, filter), x) && Nested(x, a.paneExecutions);
    var y :| SelectsLeast(m.executions, ExecutionFeed(m, filter), y) && Nested(y, b.paneExecutions);
    SameLeast(m, ExecutionFeed(m, filter), x, y);
    SameNesting(x, a.paneExecutions, b.paneExecutions);
    SameNewest(m, RootFeed(m, t, filter), a.rootAgents, b.rootAgents);
    SameNewest(m, NativeFeed(m, filter), a.durableNativeAgents, b.durableNativeAgents);
  }

  // ----- the filtered projection

  /** The entries of one run do not depend on the rest of the feed. */
  lemma NewestOfOneRun(nodes: map<RowId, AgentNode>, all: map<RowId, RunId>, one: map<RowId, RunId>, run: RunId,
                       x: RowId)
    requires forall y :: y in one <==> y in all && all[y] == run
    requires forall y :: y in one ==> one[y] == run
    ensures IsNewest(nodes, all, run, x) <==> IsNewest(nodes, one, run, x)
  {
  }

  lemma LeastOfOneRun(executions: map<RowId, Execution>, all: map<RowId, (RunId, RowId)>,
                      one: map<RowId, (RunId, RowId)>,
                      k: (RunId, RowId), x: RowId)
    requires forall y :: y in one <==> y in all && all[y].0 == k.0
    requires forall y :: y in one ==> one[y] == all[y]
    ensures IsLeast(executions, all, k, x) <==> IsLeast(executions, one, k, x)
  {
  }

  lemma RootsOfOneRun(m: Model, t: Timing, run: RunId, all: map<RunId, Evidence>, one: map<RunId, Evidence>)
    requires m.WellKeyed()
    requires SelectsNewest(m.agentNodes, RootFeed(m, t, None), all)
             && SelectsNewest(m.agentNodes, RootFeed(m, t, Some(run)), one)
    ensures run in all <==> run in one
    ensures run in all ==> all[run] == one[run]
  {
    var wide, narrow := RootFeed(m, t, None), RootFeed(m, t, Some(run));
    assert forall y :: y in narrow <==> y in wide && wide[y] == run;
    if Fed(wide, run) {
      var x :| x in wide && wide[x] == run;
      assert narrow[x] == run;
      assert Fed(narrow, run);
    }
    if Fed(narrow, run) {
      var x :| x in narrow && narrow[x] == run;
      assert wide[x] == run;
      assert Fed(wide, run);
    }
    if run in all {
      var x :| IsNewest(m.agentNodes, wide, run, x) && all[run] == EvidenceOf(m.agentNodes[x]);
      var y :| IsNewest(m.agentNodes, narrow, run, y) && one[run] == EvidenceOf(m.agentNodes[y]);
      NewestOfOneRun(m.agentNodes, wide, narrow, run, x);
      NewestIsUnique(m, narrow, run, x, y);
    }
  }

  lemma CandidatesOfOneRun(m: Model, run: RunId, all: map<(RunId, RowId), Candidate>,
                           one: map<(RunId, RowId), Candidate>, pane: RowId)
    requires m.WellKeyed()
    requires SelectsLeast(m.executions, ExecutionFeed(m, None), all)
             && SelectsLeast(m.executions, ExecutionFeed(m, Some(run)), one)
    ensures (run, pane) in all <==> (run, pane) in one
    ensures (run, pane) in all ==> all[(run, pane)] == one[(run, pane)]
  {
    var wide, narrow, k := ExecutionFeed(m, None), ExecutionFeed(m, Some(run)), (run, pane);
    assert forall y :: y in narrow <==> y in wide && wide[y].0 == run;
    if Fed(wide, k) {
      var x :| x in wide && wide[x] == k;
      assert narrow[x] == k;
      assert Fed(narrow, k);
    }
    if Fed(narrow, k) {
      var x :| x in narrow && narrow[x] == k;
      assert wide[x] == k;
      assert Fed(wide, k);
    }
    if k in all {
      var x :| IsLeast(m.executions, wide, k, x) && all[k] == CandidateOf(m.executions[x]);
      var y :| IsLeast(m.executions, narrow, k, y) && one[k] == CandidateOf(m.executions[y]);
      LeastOfOneRun(m.executions, wide, narrow, k, x);
      LeastIsUnique(m, narrow, k, x, y);
    }
  }

  /** Selections that agree on one run nest to the same panes for it. */
  lemma PanesOfOneRun(run: RunId, all: map<(RunId, RowId), Candidate>, one: map<(RunId, RowId), Candidate>,
                      allPanes: map<RunId, map<RowId, ExecState>>, onePanes: map<RunId, map<RowId, ExecState>>)
    requires Nested(all, allPanes) && Nested(one, onePanes)
    requires forall p :: ((run, p) in all <==> (run, p) in one) && ((run, p) in all ==> all[(run, p)] == one[(run, p)])
    ensures run in allPanes <==> run in onePanes
    ensures run in allPanes ==> allPanes[run] == onePanes[run]
  {
    if run in allPanes {
      var p :| p in allPanes[run];
      assert (run, p) in all;
      forall p | p in allPanes[run] ensures p in onePanes[run] && allPanes[run][p] == onePanes[run][p] {
        assert (run, p) in all;
      }
      forall p | p in onePanes[run] ensures p in allPanes[run] { assert (run, p) in one; }
      assert allPanes[run].Keys == onePanes[run].Keys;
    }
    if run in onePanes {
      var p :| p in onePanes[run];
      assert (run, p) in one;
    }
  }

  lemma RateReadsOneRun(m: Model, run: TaskRun, a: ReadModel, b: ReadModel)
    requires run.runId in a.paneExecutions <==> run.runId in b.paneExecutions
    requires run.runId in a.paneExecutions ==> a.paneExecutions[run.runId] == b.paneExecutions[run.runId]
    requires run.runId in a.rootAgents <==> run.runId in b.rootAgents
    requires run.runId in a.rootAgents ==> a.rootAgents[run.runId] == b.rootAgents[run.runId]
    ensures RateActivity(a, m, run) == RateActivity(b, m, run)
  {
  }

  /** The projection of one run alone gives the rate activity that the full projection gives. */
  lemma FilteredRateAgrees(m: Model, t: Timing, run: TaskRun, all: ReadModel, one: ReadModel)
    requires m.WellKeyed() && Describes(m, t, None, all) && Describes(m, t, Some(run.runId), one)
    ensures RateActivity(one, m, run) == RateActivity(all, m, run)
  {
    var a :| SelectsLeast(m.executions, ExecutionFeed(m, None), a) && Nested(a, all.paneExecutions);
    var o :| SelectsLeast(m.executions, ExecutionFeed(m, Some(run.runId)), o) && Nested(o, one.paneExecutions);
    forall p
      ensures ((run.runId, p) in a <==> (run.runId, p) in o)
              && ((run.runId, p) in a ==> a[(run.runId, p)] == o[(run.runId, p)])
    {
      CandidatesOfOneRun(m, run.runId, a, o, p);
    }
    PanesOfOneRun(run.runId, a, o, all.paneExecutions, one.paneExecutions);
    RootsOfOneRun(m, t, run.runId, all.rootAgents, one.rootAgents);
    RateReadsOneRun(m, run, all, one);
  }
}
