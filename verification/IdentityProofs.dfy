/** What every identity operation keeps, over all runs, and how planning and application agree. */
module IdentityProofs {
  import opened Types
  import opened Digraph
  import opened Contraction
  import opened Entities
  import opened Identity

  // ----- the identity invariant

  ghost predicate KeysResolve(m: Model) {
    forall k :: k in m.keyOwner ==> m.keyOwner[k] in m.taskRuns
  }

  ghost predicate OwnKeysResolve(m: Model) {
    forall r :: r in m.taskRuns ==> m.taskRuns[r].key in m.keyOwner && m.keyOwner[m.taskRuns[r].key] == r
  }

  ghost predicate OneSessionPerRun(m: Model) {
    forall j, k :: j in m.keyOwner && k in m.keyOwner && j.Native? && k.Native? && m.keyOwner[j] == m.keyOwner[k]
        ==> j == k
  }

  predicate HoldsSession(own: RunKey, session: RunKey) {
    own.Controller? || own == session
  }

  /** A native key belongs to a Controller-keyed run or to the run whose own key it is. */
  ghost predicate SessionHolders(m: Model)
    requires KeysResolve(m)
  {
    forall k :: k in m.keyOwner && k.Native? ==> HoldsSession(m.taskRuns[m.keyOwner[k]].key, k)
  }

  ghost predicate IdentityInvariant(m: Model) {
    m.WellKeyed() && KeysResolve(m) && OwnKeysResolve(m) && OneSessionPerRun(m) && SessionHolders(m)
  }

  /** Some before-image stands for the run. */
  predicate StoodFor(ps: map<RunId, Publication>, run: RunId) {
    exists r :: r in ps && ps[r].canonicalRunId == run
  }

  predicate Touches(edges: set<Edge>, run: RunId) {
    exists e :: e in edges && (e.src == run || e.dst == run)
  }

  /** Some row, edge, binding or per-run table still names the run, or some before-image stands for it. */
  ghost predicate Mentions(m: Model, run: RunId) {
    || run in m.taskRuns || run in m.history || run in m.rateTotals || run in m.rateCursors
    || run in m.telemetry || run in m.runKinds || run in m.keyOwner.Values
    || (exists i :: i in m.executions && m.executions[i].taskRunId == run)
    || (exists i :: i in m.agentNodes && m.agentNodes[i].taskRunId == run)
    || Touches(m.executionEdges, run) || Touches(m.dependencyEdges, run) || StoodFor(m.publications, run)
  }

  // ----- binding

  lemma NoSession(m: Model, run: RunId)
    requires IdentityInvariant(m) && run in m.taskRuns
    requires !m.taskRuns[run].key.Native? && !m.taskRuns[run].key.Controller?
    ensures NativeBindings(m, run) == {}
  {
  }

  lemma SingleSession(m: Model, run: RunId)
    requires IdentityInvariant(m) && run in m.taskRuns
    ensures SingleNativeBinding(m, run).Ok?
    ensures m.taskRuns[run].key.Native? ==> SingleNativeBinding(m, run).value.Some?
  {
    assert AtMostOne(NativeBindings(m, run));
  }

  /** The tables after a successful bind: one more key resolves, and at most the run's own key changes. */
  ghost predicate BindTables(m: Model, run: RunId, key: RunKey, after: Model) {
    && key !in m.keyOwner && run in m.taskRuns && run in after.taskRuns
    && after.keyOwner == m.keyOwner[key := run]
    && after.taskRuns == m.taskRuns[run := after.taskRuns[run]]
    && after.taskRuns[run].runId == run
    && after.taskRuns[run].key == (if m.taskRuns[run].key.Controller? then m.taskRuns[run].key else key)
  }

  /** Tables that binding never writes. */
  ghost predicate SameElsewhere(m: Model, after: Model) {
    after == m.(taskRuns := after.taskRuns, keyOwner := after.keyOwner, history := after.history)
  }

  lemma AliasBound(m: Model, run: RunId, key: RunKey, at: int)
    requires IdentityInvariant(m) && run in m.taskRuns && key !in m.keyOwner && m.taskRuns[run].key.Controller?
    ensures var after := WithTaskRun(WithAlias(m, key, run), TouchedAt(m.taskRuns[run], at));
            BindTables(m, run, key, after) && SameElsewhere(m, after) && after.history == HistoryWith(m.history, run)
  {
    RefreshedOwners(m.taskRuns, m.keyOwner[key := run], TouchedAt(m.taskRuns[run], at));
  }

  lemma PromotedOwners(taskRuns: map<RunId, TaskRun>, owners: map<RunKey, RunId>, t: TaskRun)
    requires t.runId in taskRuns && t.key !in owners
    requires taskRuns[t.runId].key in owners && owners[taskRuns[t.runId].key] == t.runId
    ensures OwnersWith(taskRuns, owners, t)[taskRuns[t.runId].key := t.runId] == owners[t.key := t.runId]
  {
  }

  lemma PromotedBound(m: Model, run: RunId, key: RunKey, at: int)
    requires IdentityInvariant(m) && run in m.taskRuns && key !in m.keyOwner && !m.taskRuns[run].key.Controller?
    ensures var t := m.taskRuns[run];
            var after := WithAlias(WithTaskRun(m, TouchedAt(t.(key := key), at)), t.key, run);
            BindTables(m, run, key, after) && SameElsewhere(m, after) && after.history == HistoryWith(m.history, run)
  {
    PromotedOwners(m.taskRuns, m.keyOwner, TouchedAt(m.taskRuns[run].(key := key), at));
  }

  /** A successful bind of a key that did not resolve. */
  ghost predicate FreshBind(m: Model, run: RunId, key: RunKey, after: Model) {
    && BindTables(m, run, key, after) && SameElsewhere(m, after) && key.Native?
    && after.history == HistoryWith(m.history, run) && NativeBindings(m, run) <= {key}
  }

  lemma OnlySession(m: Model, run: RunId, key: RunKey)
    requires SingleNativeBinding(m, run).Ok?
    requires SingleNativeBinding(m, run).value.Some? ==> SingleNativeBinding(m, run).value.value == key
    ensures NativeBindings(m, run) <= {key}
  {
  }

  lemma BoundResult(m: Model, run: RunId, key: RunKey, at: int, aliasRunId: RunId)
    requires IdentityInvariant(m) && Bound(m, run, key, at, aliasRunId).Ok?
    ensures var after := Bound(m, run, key, at, aliasRunId).value.model;
            if m.RunByKey(key).None? then FreshBind(m, run, key, after) else after == m
  {
    if m.RunByKey(key).None? {
      assert key !in m.keyOwner;
      assert !m.taskRuns[run].key.Native?;
      if m.taskRuns[run].key.Controller? {
        AliasBound(m, run, key, at);
      } else {
        PromotedBound(m, run, key, at);
      }
      OnlySession(m, run, key);
    }
  }

  lemma BindKeepsKeys(m: Model, run: RunId, key: RunKey, after: Model)
    requires IdentityInvariant(m) && BindTables(m, run, key, after)
    ensures KeysResolve(after) && OwnKeysResolve(after)
  {
  }

  lemma BindKeepsInvariant(m: Model, run: RunId, key: RunKey, after: Model)
    requires IdentityInvariant(m) && FreshBind(m, run, key, after)
    ensures IdentityInvariant(after)
  {
    BindKeepsKeys(m, run, key, after);
    forall k | k in m.keyOwner && k.Native? ensures m.keyOwner[k] != run {
      assert m.keyOwner[k] == run ==> k in NativeBindings(m, run);
    }
    forall k | k in after.keyOwner && k.Native? ensures HoldsSession(after.taskRuns[after.keyOwner[k]].key, k) {
      if k != key { assert HoldsSession(m.taskRuns[m.keyOwner[k]].key, k); }
    }
  }

  // ----- merging

  lemma MovedKeys(m: Model, survivor: RunId, absorbed: RunId)
    requires IdentityInvariant(m) && Mergeable(m, survivor, absorbed)
    ensures OwnersWithAliases(m.keyOwner, AbsorbedKeys(m, absorbed), survivor)[m.taskRuns[survivor].key := survivor]
         == map k | k in m.keyOwner :: Substitute(m.keyOwner[k], survivor, absorbed)
  {
  }

  /** On a model with the invariant, a merge moves exactly the absorbed run's keys. */
  lemma MergeMovesKeys(m: Model, survivor: RunId, absorbed: RunId, at: int)
    requires IdentityInvariant(m) && Mergeable(m, survivor, absorbed)
    ensures MergeApplied(m, survivor, absorbed, at).keyOwner
         == map k | k in m.keyOwner :: Substitute(m.keyOwner[k], survivor, absorbed)
  {
    MergeAppliedOwners(m, survivor, absorbed, at);
    MovedKeys(m, survivor, absorbed);
  }

  ghost predicate SameRows(a: Model, b: Model) {
    && a.executions == b.executions && a.agentNodes == b.agentNodes
    && a.executionEdges == b.executionEdges && a.dependencyEdges == b.dependencyEdges
       && a.publications == b.publications
  }

  lemma InsertKeepsRows(m: Model, t: TaskRun)
    ensures SameRows(m, WithTaskRun(m, t))
  {
  }

  lemma MarkKeepsRows(m: Model, survivor: RunId, absorbed: RunId, at: int)
    ensures SameRows(m, WithControllerEvidence(m, survivor, absorbed, at))
  {
  }

  /** Rows, edges and what before-images stand for are exactly the images of the old ones under absorbed to survivor. */
  ghost predicate ImageRows(m: Model, survivor: RunId, absorbed: RunId, after: Model) {
    && after.executions == ReassignedExecutions(m.executions, survivor, absorbed)
    && after.agentNodes == ReassignedNodes(m.agentNodes, survivor, absorbed)
    && after.executionEdges == Image(m.executionEdges, survivor, absorbed)
    && after.dependencyEdges == Image(m.dependencyEdges, survivor, absorbed)
    && after.publications == Redirected(m.publications, survivor, absorbed)
  }

  lemma MergedRows(m: Model, marked: Model, survivor: RunId, absorbed: RunId)
    requires SameRows(m, marked)
    ensures ImageRows(m, survivor, absorbed, MergedFrom(marked, survivor, absorbed, ImageGraphs(m, survivor, absorbed)))
  {
  }

  lemma SameImageRows(m: Model, survivor: RunId, absorbed: RunId, x: Model, y: Model)
    requires SameRows(x, y) && ImageRows(m, survivor, absorbed, x)
    ensures ImageRows(m, survivor, absorbed, y)
  {
  }

  lemma MergeRows(m: Model, survivor: RunId, absorbed: RunId, at: int)
    ensures ImageRows(m, survivor, absorbed, MergeApplied(m, survivor, absorbed, at))
  {
    var merged := Merged(m, survivor, absorbed, ImageGraphs(m, survivor, absorbed), at);
    MarkKeepsRows(m, survivor, absorbed, at);
    MergedRows(m, WithControllerEvidence(m, survivor, absorbed, at), survivor, absorbed);
    if survivor in merged.taskRuns {
      var t := TouchedAt(merged.taskRuns[survivor], at);
      InsertKeepsRows(merged, t);
      SameImageRows(m, survivor, absorbed, merged, WithTaskRun(merged, t));
    }
  }

  lemma MergedKeysInvariant(m: Model, after: Model, survivor: RunId, absorbed: RunId)
    requires IdentityInvariant(m) && Mergeable(m, survivor, absorbed)
    requires SurvivorRecord(m, survivor, absorbed, after.taskRuns)
    requires after.keyOwner == map k | k in m.keyOwner :: Substitute(m.keyOwner[k], survivor, absorbed)
    ensures KeysResolve(after) && OwnKeysResolve(after)
  {
    forall r | r in after.taskRuns ensures after.taskRuns[r].key in after.keyOwner
        && after.keyOwner[after.taskRuns[r].key] == r {
      assert after.taskRuns[r].key == m.taskRuns[r].key;
    }
  }

  /** A run that may be absorbed holds no session unless a Controller-keyed survivor takes it over. */
  lemma OneHasNoSession(m: Model, survivor: RunId, absorbed: RunId)
    requires IdentityInvariant(m) && IdentityRefusal(m, survivor, absorbed).None?
    ensures forall k :: k in m.keyOwner && k.Native? && m.keyOwner[k] == absorbed ==>
      m.taskRuns[survivor].key.Controller? && forall j :: j in m.keyOwner && j.Native? ==> m.keyOwner[j] != survivor
  {
    SingleSession(m, survivor);
    SingleSession(m, absorbed);
    forall k | k in m.keyOwner && k.Native? && m.keyOwner[k] == absorbed
      ensures m.taskRuns[survivor].key.Controller? && forall j :: j in m.keyOwner && j.Native?
                                                        ==> m.keyOwner[j] != survivor
    {
      assert k in NativeBindings(m, absorbed);
      forall j | j in m.keyOwner && j.Native? ensures m.keyOwner[j] != survivor {
        assert m.keyOwner[j] == survivor ==> j in NativeBindings(m, survivor);
      }
      assert HoldsSession(m.taskRuns[absorbed].key, k);
    }
  }

  lemma MergedSessions(m: Model, after: Model, survivor: RunId, absorbed: RunId)
    requires IdentityInvariant(m) && IdentityRefusal(m, survivor, absorbed).None?
    requires SurvivorRecord(m, survivor, absorbed, after.taskRuns)
    requires after.keyOwner == map k | k in m.keyOwner :: Substitute(m.keyOwner[k], survivor, absorbed)
    requires KeysResolve(after)
    ensures OneSessionPerRun(after) && SessionHolders(after)
  {
    OneHasNoSession(m, survivor, absorbed);
    forall k | k in after.keyOwner && k.Native? ensures HoldsSession(after.taskRuns[after.keyOwner[k]].key, k) {
      assert HoldsSession(m.taskRuns[m.keyOwner[k]].key, k);
    }
  }

  lemma ReassignedWellKeyed(m: Model, after: Model, survivor: RunId, absorbed: RunId)
    requires m.WellKeyed() && SurvivorRecord(m, survivor, absorbed, after.taskRuns)
    requires after.executions == ReassignedExecutions(m.executions, survivor, absorbed)
    requires after.agentNodes == ReassignedNodes(m.agentNodes, survivor, absorbed)
    ensures after.WellKeyed()
  {
  }

  lemma MergeKeepsInvariant(m: Model, survivor: RunId, absorbed: RunId, at: int)
    requires IdentityInvariant(m) && IdentityRefusal(m, survivor, absorbed).None?
    ensures IdentityInvariant(MergeApplied(m, survivor, absorbed, at))
  {
    var after := MergeApplied(m, survivor, absorbed, at);
    MergeAppliedRecords(m, survivor, absorbed, at);
    MergeMovesKeys(m, survivor, absorbed, at);
    MergeRows(m, survivor, absorbed, at);
    MergedKeysInvariant(m, after, survivor, absorbed);
    MergedSessions(m, after, survivor, absorbed);
    ReassignedWellKeyed(m, after, survivor, absorbed);
  }

  /** The keys of the per-run tables that a merge folds. */
  ghost predicate FoldedKeys(m: Model, survivor: RunId, absorbed: RunId, after: Model) {
    && after.telemetry.Keys <= m.telemetry.Keys + {survivor} - {absorbed}
    && after.runKinds.Keys <= m.runKinds.Keys + {survivor} - {absorbed}
    && after.rateTotals.Keys <= m.rateTotals.Keys + {survivor} - {absorbed}
    && after.rateCursors.Keys <= m.rateCursors.Keys - {absorbed}
    && after.history.Keys <= m.history.Keys + {survivor} - {absorbed}
  }

  lemma MergedFromKeys(m: Model, survivor: RunId, absorbed: RunId, graphs: ContractedGraphs)
    requires survivor != absorbed
    ensures FoldedKeys(m, survivor, absorbed, MergedFrom(m, survivor, absorbed, graphs))
  {
  }

  lemma InsertedKeys(m: Model, before: Model, survivor: RunId, absorbed: RunId, t: TaskRun)
    requires FoldedKeys(m, survivor, absorbed, before) && t.runId == survivor && survivor != absorbed
    ensures FoldedKeys(m, survivor, absorbed, WithTaskRun(before, t))
  {
  }

  lemma MarkedKeys(m: Model, survivor: RunId, absorbed: RunId, at: int)
    requires Mergeable(m, survivor, absorbed)
    ensures var marked := WithControllerEvidence(m, survivor, absorbed, at);
            && marked.telemetry == m.telemetry && marked.runKinds == m.runKinds && marked.rateTotals == m.rateTotals
            && marked.rateCursors == m.rateCursors && marked.history.Keys <= m.history.Keys + {survivor}
  {
  }

  lemma FoldedKeysFrom(m: Model, marked: Model, after: Model, survivor: RunId, absorbed: RunId)
    requires FoldedKeys(marked, survivor, absorbed, after)
    requires marked.telemetry == m.telemetry && marked.runKinds == m.runKinds && marked.rateTotals == m.rateTotals
    requires marked.rateCursors == m.rateCursors && marked.history.Keys <= m.history.Keys + {survivor}
    ensures FoldedKeys(m, survivor, absorbed, after)
  {
  }

  lemma MergeTables(m: Model, survivor: RunId, absorbed: RunId, at: int)
    requires Mergeable(m, survivor, absorbed)
    ensures FoldedKeys(m, survivor, absorbed, MergeApplied(m, survivor, absorbed, at))
  {
    var graphs := ImageGraphs(m, survivor, absorbed);
    var merged := Merged(m, survivor, absorbed, graphs, at);
    MergedFromKeys(WithControllerEvidence(m, survivor, absorbed, at), survivor, absorbed, graphs);
    MarkedKeys(m, survivor, absorbed, at);
    FoldedKeysFrom(m, WithControllerEvidence(m, survivor, absorbed, at), merged, survivor, absorbed);
    MergedRecords(m, survivor, absorbed, graphs, at);
    InsertedKeys(m, merged, survivor, absorbed, TouchedAt(merged.taskRuns[survivor], at));
  }

  lemma ImageForgets(edges: set<Edge>, survivor: RunId, absorbed: RunId, run: RunId)
    requires survivor != absorbed && run != survivor && (run == absorbed || !Touches(edges, run))
    ensures !Touches(Image(edges, survivor, absorbed), run)
  {
  }

  lemma RedirectForgets(ps: map<RunId, Publication>, survivor: RunId, absorbed: RunId, run: RunId)
    requires survivor != absorbed && run != survivor && (run == absorbed || !StoodFor(ps, run))
    ensures !StoodFor(Redirected(ps, survivor, absorbed), run)
  {
  }

  lemma ForgetsEverywhere(m: Model, after: Model, survivor: RunId, absorbed: RunId, run: RunId)
    requires survivor in m.taskRuns && survivor != absorbed && (run == absorbed || !Mentions(m, run))
    requires SurvivorRecord(m, survivor, absorbed, after.taskRuns)
    requires after.keyOwner == map k | k in m.keyOwner :: Substitute(m.keyOwner[k], survivor, absorbed)
    requires ImageRows(m, survivor, absorbed, after)
    requires FoldedKeys(m, survivor, absorbed, after)
    ensures !Mentions(after, run)
  {
    ImageForgets(m.executionEdges, survivor, absorbed, run);
    ImageForgets(m.dependencyEdges, survivor, absorbed, run);
    RedirectForgets(m.publications, survivor, absorbed, run);
    assert run !in after.keyOwner.Values;
  }

  /** Nothing mentions the absorbed run any more, and nothing mentions a run it did not mention before. */
  lemma MergeForgets(m: Model, survivor: RunId, absorbed: RunId, at: int, run: RunId)
    requires IdentityInvariant(m) && Mergeable(m, survivor, absorbed)
    requires run == absorbed || !Mentions(m, run)
    ensures !Mentions(MergeApplied(m, survivor, absorbed, at), run)
  {
    var after := MergeApplied(m, survivor, absorbed, at);
    MergeTables(m, survivor, absorbed, at);
    MergeAppliedRecords(m, survivor, absorbed, at);
    MergeMovesKeys(m, survivor, absorbed, at);
    MergeRows(m, survivor, absorbed, at);
    ForgetsEverywhere(m, after, survivor, absorbed, run);
  }

  // ----- whole runs of the system

  datatype Op =
    | ApplyPlan(plan: BindingPlan, at: int, aliasRunId: RunId)
    | AdmitRun(run: TaskRun)
    | UpdateRun(run: TaskRun)
    | AdmitExecution(execution: Execution)
    | AdmitAgentNode(node: AgentNode)
    | LinkExecution(edge: Edge)
    | LinkDependency(edge: Edge)
    | InstallImage(image: Publication)
    | ReleaseImages(released: RunId)

  /** The model and every run that a merge has absorbed so far. */
  datatype System = System(model: Model, retired: set<RunId>)

  /** New runs are fresh and under fresh keys; rows, edges and before-images name live runs; any plan may be applied. */
  ghost predicate Enabled(sys: System, op: Op) {
    var m := sys.model;
    match op
    case ApplyPlan(_, _, _) => true
    case AdmitRun(t) => t.runId !in m.taskRuns && t.runId !in sys.retired && t.key !in m.keyOwner
    case UpdateRun(t) => t.runId in m.taskRuns && m.taskRuns[t.runId].key == t.key
    case AdmitExecution(e) => e.taskRunId in m.taskRuns
    case AdmitAgentNode(n) => n.taskRunId in m.taskRuns
    case LinkExecution(e) => e.src in m.taskRuns && e.dst in m.taskRuns
    case LinkDependency(e) => e.src in m.taskRuns && e.dst in m.taskRuns
    case InstallImage(p) => p.canonicalRunId in m.taskRuns
    case ReleaseImages(_) => true
  }

  ghost function PlanStep(sys: System, plan: BindingPlan, at: int, aliasRunId: RunId): System {
    match plan
    case Merge(s, a) =>
      if MergeAccepted(sys.model, s, a) then System(MergeApplied(sys.model, s, a, at), sys.retired + {a}) else sys
    case Bind(run, key) =>
      (match Bound(sys.model, run, key, at, aliasRunId)
       case Ok(outcome) => sys.(model := outcome.model)
       case Err(_) => sys)
    case _ => sys
  }

  ghost function RowStep(m: Model, op: Op): Model {
    match op
    case AdmitRun(t) => WithTaskRun(m, t)
    case UpdateRun(t) => WithTaskRun(m, t)
    case AdmitExecution(e) => m.(executions := m.executions[e.executionId := e])
    case AdmitAgentNode(n) => m.(agentNodes := m.agentNodes[n.agentNodeId := n])
    case LinkExecution(e) =>
      if Forest(m.executionEdges + {e}) then m.(executionEdges := m.executionEdges + {e}) else m
    case LinkDependency(e) =>
      if Dag(m.dependencyEdges + {e}) then m.(dependencyEdges := m.dependencyEdges + {e}) else m
    case InstallImage(p) => m.(publications := Installed(m.publications, p))
    case ReleaseImages(r) => m.(publications := Unreleased(m.publications, r))
    case ApplyPlan(_, _, _) => m
  }

  ghost function Next(sys: System, op: Op): System {
    if op.ApplyPlan? then PlanStep(sys, op.plan, op.at, op.aliasRunId) else sys.(model := RowStep(sys.model, op))
  }

  /** Every outcome the application method allows is the system's step. */
  lemma ApplicationIsAStep(sys: System, plan: BindingPlan, at: int, aliasRunId: RunId, after: Model, r: Applying)
    requires Applied(sys.model, plan, at, aliasRunId, after, r)
    ensures after == PlanStep(sys, plan, at, aliasRunId).model
  {
  }

  ghost predicate Good(sys: System) {
    && IdentityInvariant(sys.model)
    && Forest(sys.model.executionEdges) && Dag(sys.model.dependencyEdges)
    && forall r :: r in sys.retired ==> !Mentions(sys.model, r)
  }

  lemma InsertedOwners(m: Model, t: TaskRun)
    requires t.runId in m.taskRuns ==> m.taskRuns[t.runId].key == t.key
    ensures WithTaskRun(m, t).keyOwner == m.keyOwner[t.key := t.runId]
  {
    if t.runId in m.taskRuns { RefreshedOwners(m.taskRuns, m.keyOwner, t); }
  }

  /** The empty model, from which every run of the system may start. */
  const EMPTY := Model(map[], map[], map[], map[], map[], map[], map[], map[], map[], {}, {}, map[], map[], 0)

  lemma EmptyIsGood()
    ensures Good(System(EMPTY, {}))
  {
    RankedIsAcyclic({}, map[]);
  }

  lemma InsertKeepsSessions(m: Model, t: TaskRun, after: Model)
    requires IdentityInvariant(m)
    requires if t.runId in m.taskRuns then m.taskRuns[t.runId].key == t.key else t.key !in m.keyOwner
    requires after.keyOwner == m.keyOwner[t.key := t.runId] && after.taskRuns == m.taskRuns[t.runId := t]
    requires after.executions == m.executions && after.agentNodes == m.agentNodes
    ensures IdentityInvariant(after)
  {
    forall k | k in after.keyOwner && k.Native? ensures HoldsSession(after.taskRuns[after.keyOwner[k]].key, k) {
      if k != t.key { assert HoldsSession(m.taskRuns[m.keyOwner[k]].key, k); }
    }
  }

  lemma InsertKeepsInvariant(m: Model, t: TaskRun)
    requires IdentityInvariant(m)
    requires if t.runId in m.taskRuns then m.taskRuns[t.runId].key == t.key else t.key !in m.keyOwner
    ensures IdentityInvariant(WithTaskRun(m, t))
  {
    InsertedOwners(m, t);
    InsertKeepsSessions(m, t, WithTaskRun(m, t));
  }

  lemma InsertForgets(m: Model, t: TaskRun, run: RunId)
    requires IdentityInvariant(m) && !Mentions(m, run) && run != t.runId
    requires if t.runId in m.taskRuns then m.taskRuns[t.runId].key == t.key else t.key !in m.keyOwner
    ensures !Mentions(WithTaskRun(m, t), run)
  {
    InsertedOwners(m, t);
    assert run !in m.keyOwner[t.key := t.runId].Values;
  }

  lemma BindForgets(m: Model, run: RunId, key: RunKey, after: Model, other: RunId)
    requires FreshBind(m, run, key, after) && !Mentions(m, other)
    ensures !Mentions(after, other)
  {
    assert other !in m.keyOwner[key := run].Values;
  }

  lemma PlanStepKeepsGood(sys: System, plan: BindingPlan, at: int, aliasRunId: RunId)
    requires Good(sys)
    ensures Good(PlanStep(sys, plan, at, aliasRunId))
  {
    var m := sys.model;
    match plan {
      case Merge(s, a) =>
        if MergeAccepted(m, s, a) {
          MergeKeepsInvariant(m, s, a, at);
          MergeRows(m, s, a, at);
          forall r | r in sys.retired + {a} ensures !Mentions(MergeApplied(m, s, a, at), r) {
            MergeForgets(m, s, a, at, r);
          }
        }
      case Bind(run, key) =>
        if Bound(m, run, key, at, aliasRunId).Ok? {
          var after := Bound(m, run, key, at, aliasRunId).value.model;
          BoundResult(m, run, key, at, aliasRunId);
          if after != m {
            BindKeepsInvariant(m, run, key, after);
            forall r | r in sys.retired ensures !Mentions(after, r) {
              BindForgets(m, run, key, after, r);
            }
          }
        }
      case _ =>
    }
  }

  lemma LinkForgets(edges: set<Edge>, e: Edge, run: RunId)
    requires !Touches(edges, run) && e.src != run && e.dst != run
    ensures !Touches(edges + {e}, run)
  {
  }

  lemma InsertRunKeepsGood(sys: System, t: TaskRun)
    requires Good(sys) && t.runId !in sys.retired
    requires if t.runId in sys.model.taskRuns then sys.model.taskRuns[t.runId].key == t.key
             else t.key !in sys.model.keyOwner
    ensures Good(sys.(model := WithTaskRun(sys.model, t)))
  {
    InsertKeepsInvariant(sys.model, t);
    forall r | r in sys.retired ensures !Mentions(WithTaskRun(sys.model, t), r) { InsertForgets(sys.model, t, r); }
  }

  lemma LiveIsNotRetired(sys: System, run: RunId)
    requires Good(sys) && run in sys.model.taskRuns
    ensures run !in sys.retired
  {
    assert Mentions(sys.model, run);
  }

  lemma AdmitRowKeepsGood(sys: System, op: Op)
    requires Good(sys) && Enabled(sys, op) && (op.AdmitExecution? || op.AdmitAgentNode?)
    ensures Good(sys.(model := RowStep(sys.model, op)))
  {
    LiveIsNotRetired(sys, if op.AdmitExecution? then op.execution.taskRunId else op.node.taskRunId);
  }

  lemma LinkKeepsGood(sys: System, op: Op)
    requires Good(sys) && Enabled(sys, op) && (op.LinkExecution? || op.LinkDependency?)
    ensures Good(sys.(model := RowStep(sys.model, op)))
  {
    var m, after := sys.model, RowStep(sys.model, op);
    LiveIsNotRetired(sys, op.edge.src);
    LiveIsNotRetired(sys, op.edge.dst);
    forall r | r in sys.retired ensures !Mentions(after, r) {
      LinkForgets(m.executionEdges, op.edge, r);
      LinkForgets(m.dependencyEdges, op.edge, r);
    }
  }

  lemma ImagesKeepGood(sys: System, op: Op)
    requires Good(sys) && Enabled(sys, op) && (op.InstallImage? || op.ReleaseImages?)
    ensures Good(sys.(model := RowStep(sys.model, op)))
  {
    if op.InstallImage? { LiveIsNotRetired(sys, op.image.canonicalRunId); }
    forall r | r in sys.retired ensures !Mentions(RowStep(sys.model, op), r) {
      assert !StoodFor(sys.model.publications, r);
    }
  }

  lemma RowStepKeepsGood(sys: System, op: Op)
    requires Good(sys) && Enabled(sys, op) && !op.ApplyPlan?
    ensures Good(sys.(model := RowStep(sys.model, op)))
  {
    if op.AdmitRun? || op.UpdateRun? {
      if op.UpdateRun? { LiveIsNotRetired(sys, op.run.runId); }
      InsertRunKeepsGood(sys, op.run);
    } else if op.AdmitExecution? || op.AdmitAgentNode? {
      AdmitRowKeepsGood(sys, op);
    } else if op.InstallImage? || op.ReleaseImages? {
      ImagesKeepGood(sys, op);
    } else {
      LinkKeepsGood(sys, op);
    }
  }

  ghost function Run(sys: System, ops: seq<Op>): System
    decreases ops
  {
    if ops == [] then sys else Run(Next(sys, ops[0]), ops[1..])
  }

  ghost predicate EnabledThroughout(sys: System, ops: seq<Op>)
    decreases ops
  {
    ops != [] ==> Enabled(sys, ops[0]) && EnabledThroughout(Next(sys, ops[0]), ops[1..])
  }

  lemma StepKeepsGood(sys: System, op: Op)
    requires Good(sys) && Enabled(sys, op)
    ensures Good(Next(sys, op))
  {
    if op.ApplyPlan? {
      PlanStepKeepsGood(sys, op.plan, op.at, op.aliasRunId);
    } else {
      RowStepKeepsGood(sys, op);
    }
  }

  /**
   * Safety over every run: dispatch edges stay a forest, dependencies stay acyclic, the identity
   * invariant holds, and no absorbed run is ever mentioned again.
   */
  lemma {:induction false} RunsStayGood(sys: System, ops: seq<Op>)
    requires Good(sys) && EnabledThroughout(sys, ops)
    ensures Good(Run(sys, ops))
    decreases ops
  {
    if ops != [] {
      StepKeepsGood(sys, ops[0]);
      RunsStayGood(Next(sys, ops[0]), ops[1..]);
    }
  }

  /** An accepted merge moves the absorbed run's identity to its survivor. */
  ghost function Moved(sys: System, plan: BindingPlan, run: RunId): RunId {
    if plan.Merge? && MergeAccepted(sys.model, plan.survivor, plan.absorbed)
        then Substitute(run, plan.survivor, plan.absorbed)
    else run
  }

  ghost function FollowOne(sys: System, op: Op, run: RunId): RunId {
    if op.ApplyPlan? then Moved(sys, op.plan, run) else run
  }

  /** Where a run's identity ends up after following the accepted merges of a run of the system. */
  ghost function Follow(sys: System, ops: seq<Op>, run: RunId): RunId
    decreases ops
  {
    if ops == [] then run else Follow(Next(sys, ops[0]), ops[1..], FollowOne(sys, ops[0], run))
  }

  lemma PlanStepKeepsKeys(sys: System, plan: BindingPlan, at: int, aliasRunId: RunId, k: RunKey)
    requires IdentityInvariant(sys.model) && k in sys.model.keyOwner
    ensures var after := PlanStep(sys, plan, at, aliasRunId).model;
            k in after.keyOwner && after.keyOwner[k] == Moved(sys, plan, sys.model.keyOwner[k])
  {
    var m := sys.model;
    if plan.Merge? && MergeAccepted(m, plan.survivor, plan.absorbed) {
      MergeMovesKeys(m, plan.survivor, plan.absorbed, at);
    }
    if plan.Bind? && Bound(m, plan.run, plan.key, at, aliasRunId).Ok? {
      BoundResult(m, plan.run, plan.key, at, aliasRunId);
    }
  }

  lemma InsertKeepsKeys(m: Model, t: TaskRun, k: RunKey)
    requires IdentityInvariant(m) && k in m.keyOwner
    requires if t.runId in m.taskRuns then m.taskRuns[t.runId].key == t.key else t.key !in m.keyOwner
    ensures k in WithTaskRun(m, t).keyOwner && WithTaskRun(m, t).keyOwner[k] == m.keyOwner[k]
  {
    InsertedOwners(m, t);
  }

  lemma OtherRowsKeepKeys(m: Model, op: Op)
    requires !op.ApplyPlan? && !op.AdmitRun? && !op.UpdateRun?
    ensures RowStep(m, op).keyOwner == m.keyOwner
  {
  }

  lemma RowStepKeepsKeys(sys: System, op: Op, k: RunKey)
    requires IdentityInvariant(sys.model) && Enabled(sys, op) && k in sys.model.keyOwner && !op.ApplyPlan?
    ensures k in RowStep(sys.model, op).keyOwner && RowStep(sys.model, op).keyOwner[k] == sys.model.keyOwner[k]
  {
    if op.AdmitRun? || op.UpdateRun? {
      InsertKeepsKeys(sys.model, op.run, k);
    } else {
      OtherRowsKeepKeys(sys.model, op);
    }
  }

  lemma StepKeepsKeys(sys: System, op: Op, k: RunKey)
    requires Good(sys) && Enabled(sys, op) && k in sys.model.keyOwner
    ensures k in Next(sys, op).model.keyOwner
    ensures Next(sys, op).model.keyOwner[k] == FollowOne(sys, op, sys.model.keyOwner[k])
  {
    if op.ApplyPlan? {
      PlanStepKeepsKeys(sys, op.plan, op.at, op.aliasRunId, k);
    } else {
      RowStepKeepsKeys(sys, op, k);
    }
  }

  /** A key that once resolved resolves for ever, to the survivor of its run along the chain of merges. */
  lemma {:induction false} KeysFollowMerges(sys: System, ops: seq<Op>, k: RunKey)
    requires Good(sys) && EnabledThroughout(sys, ops) && k in sys.model.keyOwner
    ensures var final := Run(sys, ops).model;
            && k in final.keyOwner && final.keyOwner[k] == Follow(sys, ops, sys.model.keyOwner[k])
            && final.keyOwner[k] in final.taskRuns
    decreases ops
  {
    if ops != [] {
      StepKeepsKeys(sys, ops[0], k);
      StepKeepsGood(sys, ops[0]);
      KeysFollowMerges(Next(sys, ops[0]), ops[1..], k);
    }
  }

  // ----- planning and application agree

  /** The native key the evidence is about. */
  ghost function EvidenceKey(ev: BindingEvidence): Option<RunKey> {
    match ev
    case NativeSession(_, provider, sid) => Some(Native(provider, sid))
    case HeuristicNativeSession(_, sid) => Some(Native(Codex, sid))
    case NativePathResolved(_, provider, sid) => Some(Native(provider, sid))
    case ControllerNativeSession(_, provider, sid) => Some(Native(provider, sid))
    case ControllerTerminal(_, _) => None
  }

  ghost predicate SessionFree(m: Model, run: RunId, key: RunKey) {
    SingleNativeBinding(m, run) == Ok(None) || SingleNativeBinding(m, run) == Ok(Some(key))
  }

  /** What a decision to bind says about the run and the key. */
  ghost predicate BindFacts(m: Model, run: RunId, key: RunKey) {
    && run in m.taskRuns && key.Native? && key !in m.keyOwner && !m.taskRuns[run].key.Native?
    && (m.taskRuns[run].key.Controller? ==> SessionFree(m, run, key))
  }

  lemma DecidedNativeBind(m: Model, run: RunId, provider: Provider, sid: string, bound: BindingPlan)
    requires IdentityInvariant(m) && DecideNativeSession(m, run, provider, sid) == Settled(bound) && bound.Bind?
    ensures bound == Bind(run, Native(provider, sid))
    ensures BindFacts(m, run, Native(provider, sid)) && !m.taskRuns[run].key.Controller?
  {
  }

  lemma DecidedBind(m: Model, ev: BindingEvidence, run: RunId, key: RunKey)
    requires IdentityInvariant(m) && Decide(m, ev) == Settled(Bind(run, key))
    ensures run == ev.run && EvidenceKey(ev) == Some(key) && BindFacts(m, run, key)
    ensures m.taskRuns[run].key.Controller? <==> ev.ControllerNativeSession?
  {
    match ev {
      case NativeSession(r, p, sid) => DecidedNativeBind(m, r, p, sid, Bind(run, key));
      case HeuristicNativeSession(r, sid) => DecidedNativeBind(m, r, Codex, sid, Bind(run, key));
      case _ =>
    }
  }

  lemma BindSucceeds(m: Model, run: RunId, key: RunKey, at: int, aliasRunId: RunId)
    requires run in m.taskRuns && key.Native? && m.RunByKey(key).None?
    requires SessionFree(m, run, key) && !m.taskRuns[run].key.Native?
    ensures Bound(m, run, key, at, aliasRunId).Ok?
  {
  }

  lemma PlannedBindApplies(m: Model, ev: BindingEvidence, run: RunId, key: RunKey, at: int, aliasRunId: RunId)
    requires IdentityInvariant(m) && Decide(m, ev) == Settled(Bind(run, key))
    ensures Bound(m, run, key, at, aliasRunId).Ok?
    ensures FreshBind(m, run, key, Bound(m, run, key, at, aliasRunId).value.model)
  {
    DecidedBind(m, ev, run, key);
    if !m.taskRuns[run].key.Controller? { NoSession(m, run); }
    BindSucceeds(m, run, key, at, aliasRunId);
    BoundResult(m, run, key, at, aliasRunId);
  }

  /** Whatever planning proposes on a model with the invariant, application carries out. */
  lemma PlansApply(m: Model, ev: BindingEvidence, plan: BindingPlan, at: int, aliasRunId: RunId, after: Model,
                   r: Applying)
    requires IdentityInvariant(m) && Planned(m, ev, plan) && (plan.Bind? || plan.Merge?)
    requires Applied(m, plan, at, aliasRunId, after, r)
    ensures r.Ok?
  {
    if plan.Bind? { PlannedBindApplies(m, ev, plan.run, plan.key, at, aliasRunId); }
  }

  /** Planning settles the evidence without touching any identity. */
  ghost predicate Quiet(m: Model, ev: BindingEvidence) {
    Decide(m, ev).Settled? && (Decide(m, ev).plan.NoChange? || Decide(m, ev).plan.Conflict?)
  }

  lemma OwnedKeySettles(after: Model, ev: BindingEvidence, key: RunKey)
    requires EvidenceKey(ev) == Some(key) && key in after.keyOwner && after.keyOwner[key] == ev.run
    requires ev.run in after.taskRuns && after.taskRuns[ev.run].runId == ev.run
    requires ev.ControllerNativeSession? || after.taskRuns[ev.run].key == key
    ensures Quiet(after, ev)
  {
    assert after.RunByKey(key) == Some(after.taskRuns[ev.run]);
  }

  lemma BoundSettles(m: Model, ev: BindingEvidence, run: RunId, key: RunKey, after: Model)
    requires IdentityInvariant(m) && Decide(m, ev) == Settled(Bind(run, key)) && BindTables(m, run, key, after)
    ensures Quiet(after, ev)
  {
    DecidedBind(m, ev, run, key);
    OwnedKeySettles(after, ev, key);
  }

  lemma MergedTerminal(m: Model, after: Model, run: RunId, absorbed: RunId, terminalId: string)
    requires LiveRuns(m, terminalId) == {absorbed}
    requires after.executions == ReassignedExecutions(m.executions, run, absorbed)
    ensures Sorted(LiveRuns(after, terminalId)) == [run]
  {
    assert absorbed in LiveRuns(m, terminalId);
    var i :| i in m.executions && m.executions[i].terminalId == terminalId && !m.executions[i].state.IsTerminal()
             && m.executions[i].taskRunId == absorbed;
    assert after.executions[i].taskRunId in LiveRuns(after, terminalId);
    forall r | r in LiveRuns(after, terminalId) ensures r == run {
      var j :| j in after.executions && after.executions[j].terminalId == terminalId
               && !after.executions[j].state.IsTerminal() && after.executions[j].taskRunId == r;
      assert m.executions[j].taskRunId in LiveRuns(m, terminalId);
    }
    assert LiveRuns(after, terminalId) == {run};
  }

  lemma SoleLiveRun(m: Model, terminalId: string, run: RunId)
    requires |Sorted(LiveRuns(m, terminalId))| == 1 && Sorted(LiveRuns(m, terminalId))[0] == run
    ensures LiveRuns(m, terminalId) == {run}
  {
    var live := Sorted(LiveRuns(m, terminalId));
    assert live == [run];
    forall r | r in LiveRuns(m, terminalId) ensures r == run { assert r in live; }
  }

  /** What a decision to merge says about the evidence. */
  ghost predicate MergeFacts(m: Model, ev: BindingEvidence, survivor: RunId, absorbed: RunId) {
    match ev
    case NativeSession(run, _, _) => absorbed == run
    case HeuristicNativeSession(_, _) => false
    case NativePathResolved(run, _, _) => absorbed == run
    case ControllerNativeSession(run, p, sid) =>
      && survivor == run && run in m.taskRuns && m.taskRuns[run].key.Controller?
      && Native(p, sid) in m.keyOwner && m.keyOwner[Native(p, sid)] == absorbed
    case ControllerTerminal(run, terminalId) =>
      survivor == run && run in m.taskRuns && m.taskRuns[run].key.Controller? && LiveRuns(m, terminalId) == {absorbed}
  }

  lemma DecidedTerminalMerge(m: Model, run: RunId, terminalId: string, survivor: RunId, absorbed: RunId)
    requires DecideControllerTerminal(m, run, terminalId) == Propose(survivor, absorbed)
    ensures MergeFacts(m, ControllerTerminal(run, terminalId), survivor, absorbed)
  {
    SoleLiveRun(m, terminalId, absorbed);
  }

  lemma DecidedControllerMerge(m: Model, run: RunId, p: Provider, sid: string, survivor: RunId, absorbed: RunId)
    requires IdentityInvariant(m) && DecideControllerNative(m, run, p, sid) == Propose(survivor, absorbed)
    ensures MergeFacts(m, ControllerNativeSession(run, p, sid), survivor, absorbed)
  {
  }

  lemma DecidedMerge(m: Model, ev: BindingEvidence, survivor: RunId, absorbed: RunId)
    requires IdentityInvariant(m) && Decide(m, ev) == Propose(survivor, absorbed)
    ensures MergeFacts(m, ev, survivor, absorbed)
  {
    match ev {
      case ControllerTerminal(run, terminalId) => DecidedTerminalMerge(m, run, terminalId, survivor, absorbed);
      case ControllerNativeSession(run, p, sid) => DecidedControllerMerge(m, run, p, sid, survivor, absorbed);
      case _ =>
    }
  }

  lemma MergedSettles(m: Model, after: Model, ev: BindingEvidence, survivor: RunId, absorbed: RunId)
    requires survivor != absorbed && SurvivorRecord(m, survivor, absorbed, after.taskRuns)
    requires after.keyOwner == map k | k in m.keyOwner :: Substitute(m.keyOwner[k], survivor, absorbed)
    requires after.executions == ReassignedExecutions(m.executions, survivor, absorbed)
    requires MergeFacts(m, ev, survivor, absorbed)
    ensures Quiet(after, ev)
  {
    match ev {
      case ControllerTerminal(run, terminalId) => MergedTerminal(m, after, run, absorbed, terminalId);
      case ControllerNativeSession(_, _, _) => OwnedKeySettles(after, ev, EvidenceKey(ev).value);
      case _ =>
    }
  }

  lemma MergeSettles(m: Model, ev: BindingEvidence, survivor: RunId, absorbed: RunId, at: int)
    requires IdentityInvariant(m) && Decide(m, ev) == Propose(survivor, absorbed)
             && MergeAccepted(m, survivor, absorbed)
    ensures Quiet(MergeApplied(m, survivor, absorbed, at), ev)
  {
    DecidedMerge(m, ev, survivor, absorbed);
    MergeAppliedRecords(m, survivor, absorbed, at);
    MergeMovesKeys(m, survivor, absorbed, at);
    MergeRows(m, survivor, absorbed, at);
    MergedSettles(m, MergeApplied(m, survivor, absorbed, at), ev, survivor, absorbed);
  }

  lemma UnchangedReplan(m: Model, ev: BindingEvidence, plan: BindingPlan, again: BindingPlan)
    requires Planned(m, ev, plan) && Planned(m, ev, again) && (plan.NoChange? || plan.Conflict?)
    ensures again.NoChange? || again.Conflict?
  {
  }

  lemma QuietPlan(m: Model, ev: BindingEvidence, plan: BindingPlan)
    requires Quiet(m, ev) && Planned(m, ev, plan)
    ensures plan.NoChange? || plan.Conflict?
  {
  }

  lemma PlannedMerge(m: Model, ev: BindingEvidence, survivor: RunId, absorbed: RunId)
    requires Planned(m, ev, Merge(survivor, absorbed))
    ensures Decide(m, ev) == Propose(survivor, absorbed) && MergeAccepted(m, survivor, absorbed)
  {
  }

  /** Planning the same evidence again after applying its plan never binds or merges a second time. */
  lemma ReplanningIsQuiet(m: Model, ev: BindingEvidence, plan: BindingPlan, at: int, aliasRunId: RunId, after: Model,
                          r: Applying, again: BindingPlan)
    requires IdentityInvariant(m) && Planned(m, ev, plan) && Applied(m, plan, at, aliasRunId, after, r)
    requires Planned(after, ev, again)
    ensures again.NoChange? || again.Conflict?
  {
    match plan {
      case Bind(run, key) =>
        PlannedBindApplies(m, ev, run, key, at, aliasRunId);
        BoundSettles(m, ev, run, key, after);
        QuietPlan(after, ev, again);
      case Merge(s, a) =>
        PlannedMerge(m, ev, s, a);
        MergeSettles(m, ev, s, a, at);
        QuietPlan(after, ev, again);
      case _ =>
        UnchangedReplan(m, ev, plan, again);
    }
  }

  // ----- merges in terms of the graph before them

  /** A path leads from one of the runs to the other. */
  ghost predicate Joined(edges: set<Edge>, a: RunId, b: RunId) {
    Reaches(edges, a, b) || Reaches(edges, b, a)
  }

  /** A merge is accepted exactly when the identities allow it, no path joins the pair, and their parents agree. */
  lemma MergeAcceptedByPaths(sys: System, survivor: RunId, absorbed: RunId)
    requires Good(sys)
    ensures MergeAccepted(sys.model, survivor, absorbed)
       <==> && IdentityRefusal(sys.model, survivor, absorbed).None?
            && !Joined(sys.model.executionEdges, survivor, absorbed)
            && ParentsAgree(sys.model.executionEdges, survivor, absorbed)
            && !Joined(sys.model.dependencyEdges, survivor, absorbed)
  {
    if IdentityRefusal(sys.model, survivor, absorbed).None? {
      ForestContraction(sys.model.executionEdges, survivor, absorbed);
      DagContraction(sys.model.dependencyEdges, survivor, absorbed);
    }
  }
}
