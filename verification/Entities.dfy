/** Task runs, the rows keyed by them, and the mutable domain model that holds them all. */
module Entities {
  import opened Types
  import opened Contraction

  const I64_MAX: int := 0x7FFF_FFFF_FFFF_FFFF
  const I64_MIN: int := -0x8000_0000_0000_0000
  const U64_MAX: int := 0xFFFF_FFFF_FFFF_FFFF
  /** The largest total the durable store can represent. */
  const PERSISTED_RATE_TOTAL_MAX: int := I64_MAX

  /** Row identifiers (executions, panes, agent nodes): only equality and a total order are used. */
  type RowId = nat

  datatype TaskState = Queued | Running | Blocked | Completed | Failed | Cancelled | EndedUnknown {
    predicate IsTerminal() { Completed? || Failed? || Cancelled? || EndedUnknown? }
  }

  datatype ExecState = Unknown | Idle | Working | ExecBlocked | Stale(sinceMs: int) | Ended {
    predicate IsTerminal() { Ended? }
  }

  datatype TaskRun = TaskRun(
    runId: RunId,
    key: RunKey,
    displayOrdinal: int,
    state: TaskState,
    hasControllerTaskStateEvent: bool,
    createdAtMs: Option<int>,
    updatedAtMs: Option<int>,
    finishedAtMs: Option<int>,
    subject: Option<string>,
    dismissedAtMs: Option<int>) {

    /** Advances bookkeeping for a mutation at its selected timestamp. */
    function Touched(at: int): TaskRun {
      if state.IsTerminal() then
        this.(updatedAtMs := Some(at), finishedAtMs := Some(finishedAtMs.UnwrapOr(at)))
      else
        this.(updatedAtMs := Some(at), finishedAtMs := None, dismissedAtMs := None)
    }
  }

  datatype Execution = Execution(executionId: RowId, paneId: RowId, terminalId: string, taskRunId: RunId,
                                 state: ExecState)

  datatype AgentNode = AgentNode(
    agentNodeId: RowId,
    provider: Provider,
    nativeSessionId: Option<string>,
    taskRunId: RunId,
    parentAgentNodeId: Option<RowId>,
    state: Option<ExecState>,
    lastEventKind: Option<string>,
    lastActivityAtMs: Option<int>)

  datatype PaneAgentStatus = PaneIdle | PaneWorking | PaneBlocked | PaneDone | PaneUnknown

  datatype SessionEndStatus = EndDone | EndError | EndCancelled | EndNotKnown
  datatype SessionEnd = SessionEnd(status: SessionEndStatus, atMs: int)

  /** Orders native-session end and reopen observations lexicographically. */
  datatype Watermark = Watermark(sourceAtMs: int, observedAtMs: int, sourceOrder: nat) {
    predicate Above(other: Watermark) {
      || sourceAtMs > other.sourceAtMs
      || (sourceAtMs == other.sourceAtMs && observedAtMs > other.observedAtMs)
      || (sourceAtMs == other.sourceAtMs && observedAtMs == other.observedAtMs && sourceOrder > other.sourceOrder)
    }
  }

  /** An absent watermark is below every present one. */
  predicate WatermarkAbove(a: Option<Watermark>, b: Option<Watermark>) {
    a.Some? && (b.None? || a.value.Above(b.value))
  }

  /** Lifecycle and history readiness kept beside one task run. */
  datatype RunHistory = RunHistory(
    nativeSessionEnd: Option<SessionEnd>,
    lifecycleWatermark: Option<Watermark>,
    historyReady: bool,
    latestProviderAtMs: Option<int>)

  const DEFAULT_HISTORY := RunHistory(None, None, true, None)

  datatype RateTotals = RateTotals(outputTokens: nat, workingMs: int) {
    function Clamped(): RateTotals {
      RateTotals(Min(outputTokens, PERSISTED_RATE_TOTAL_MAX), Max(workingMs, 0))
    }

    function Plus(delta: RateTotals): RateTotals {
      RateTotals(
        Min(Clamped().outputTokens + delta.outputTokens, PERSISTED_RATE_TOTAL_MAX),
        Min(Clamped().workingMs + Max(delta.workingMs, 0), I64_MAX))
    }

    /** Whether adding `delta` clamps anything on the way. */
    predicate Saturates(delta: RateTotals) {
      || this != Clamped()
      || delta.workingMs < 0
      || Clamped().outputTokens + delta.outputTokens > PERSISTED_RATE_TOTAL_MAX
      || Clamped().workingMs + Max(delta.workingMs, 0) > I64_MAX
    }
  }

  datatype RateCursor = RateCursor(
    baselineOutputTokens: nat,
    lastObservedAtMs: int,
    working: bool,
    measurementEpoch: nat,
    identityBasis: RunKey,
    liveBaseline: bool)

  datatype TurnAttr = TurnAttr(model: Option<string>, effort: Option<string>, sandbox: Option<string>)

  datatype TokenBreakdown = TokenBreakdown(
    input: Option<nat>,
    cachedInput: Option<nat>,
    cacheWriteInput: Option<nat>,
    reasoningOutput: Option<nat>,
    total: Option<nat>,
    contextWindow: Option<nat>)

  datatype Telemetry = Telemetry(
    outputTokens: nat,
    breakdown: TokenBreakdown,
    startedWallMs: int,
    attr: TurnAttr,
    perTurn: seq<TurnAttr>)

  function SaturatingAddU64(a: nat, b: nat): nat { Min(a + b, U64_MAX) }

  function AccumulateReported(slot: Option<nat>, sample: Option<nat>): Option<nat> {
    if sample.Some? then Some(SaturatingAddU64(slot.UnwrapOr(0), sample.value)) else slot
  }

  function OrElse<T>(a: Option<T>, b: Option<T>): Option<T> { if a.Some? then a else b }

  /** Appends each attribution that differs from the one before it. */
  function AppendTurns(turns: seq<TurnAttr>, more: seq<TurnAttr>): seq<TurnAttr>
    decreases |more|
  {
    if more == [] then turns
    else if turns != [] && turns[|turns| - 1] == more[0] then AppendTurns(turns, more[1..])
    else AppendTurns(turns + [more[0]], more[1..])
  }

  function FoldedTelemetry(canonical: Telemetry, absorbed: Telemetry): Telemetry {
    Telemetry(
      SaturatingAddU64(canonical.outputTokens, absorbed.outputTokens),
      TokenBreakdown(
        AccumulateReported(canonical.breakdown.input, absorbed.breakdown.input),
        AccumulateReported(canonical.breakdown.cachedInput, absorbed.breakdown.cachedInput),
        AccumulateReported(canonical.breakdown.cacheWriteInput, absorbed.breakdown.cacheWriteInput),
        AccumulateReported(canonical.breakdown.reasoningOutput, absorbed.breakdown.reasoningOutput),
        AccumulateReported(canonical.breakdown.total, absorbed.breakdown.total),
        OrElse(canonical.breakdown.contextWindow, absorbed.breakdown.contextWindow)),
      Min(canonical.startedWallMs, absorbed.startedWallMs),
      TurnAttr(
        OrElse(canonical.attr.model, absorbed.attr.model),
        OrElse(canonical.attr.effort, absorbed.attr.effort),
        OrElse(canonical.attr.sandbox, absorbed.attr.sandbox)),
      AppendTurns(canonical.perTurn, absorbed.perTurn))
  }

  function FoldedHistory(survivor: RunHistory, absorbed: RunHistory): RunHistory {
    var wins := WatermarkAbove(absorbed.lifecycleWatermark, survivor.lifecycleWatermark);
    RunHistory(
      if wins then absorbed.nativeSessionEnd else survivor.nativeSessionEnd,
      if wins then absorbed.lifecycleWatermark else survivor.lifecycleWatermark,
      survivor.historyReady || absorbed.historyReady,
      match (survivor.latestProviderAtMs, absorbed.latestProviderAtMs)
      case (Some(l), Some(r)) => Some(Max(l, r))
      case (Some(l), None) => Some(l)
      case (None, r) => r)
  }

  /** The last published state of one run, captured while its history is quarantined. */
  datatype Publication = Publication(
    canonicalRunId: RunId,
    taskRun: TaskRun,
    state: RunHistory,
    aliases: set<RunKey>,
    rateTotals: Option<RateTotals>,
    executions: map<RowId, Execution>,
    agentNodes: map<RowId, AgentNode>,
    executionEdges: set<Edge>,
    dependencyEdges: set<Edge>,
    telemetry: Option<Telemetry>,
    runKind: Option<string>,
    rateCursor: Option<RateCursor>)

  /** The whole state of a `DomainModel`, as a value. */
  datatype Model = Model(
    taskRuns: map<RunId, TaskRun>,
    keyOwner: map<RunKey, RunId>,
    history: map<RunId, RunHistory>,
    rateTotals: map<RunId, RateTotals>,
    rateCursors: map<RunId, RateCursor>,
    telemetry: map<RunId, Telemetry>,
    runKinds: map<RunId, string>,
    executions: map<RowId, Execution>,
    agentNodes: map<RowId, AgentNode>,
    executionEdges: set<Edge>,
    dependencyEdges: set<Edge>,
    publications: map<RunId, Publication>,
    paneStatuses: map<RowId, PaneAgentStatus>,
    rateSaturations: nat) {

    /** The run a key resolves to, with its record. */
    function RunByKey(key: RunKey): Option<TaskRun> {
      if key in keyOwner && keyOwner[key] in taskRuns then Some(taskRuns[keyOwner[key]]) else None
    }

    /** Rows are stored under the identifiers they carry. */
    predicate WellKeyed() {
      && (forall r :: r in taskRuns ==> taskRuns[r].runId == r)
      && (forall i :: i in executions ==> executions[i].executionId == i)
      && (forall i :: i in agentNodes ==> agentNodes[i].agentNodeId == i)
    }
  }

  /** The runs that some execution belongs to. */
  function RunsWithExecutions(m: Model): set<RunId> {
    set x | x in m.executions :: m.executions[x].taskRunId
  }

  /** The clock, and the windows after which unidentified runs and silent agents are no longer displayed. */
  datatype Timing = Timing(nowMs: int, ghostVisibilityMs: int, headlessInactivityMs: int)

  // ----- activity and the durable operations that the reducer emits

  /** Event identities: only equality and a total order are used. */
  type EventId = nat

  datatype Durability = Durable | CurrentOnly | DurabilityUnknown

  /** One operator-visible event; `detail` stands for every field that is only displayed. */
  datatype ActivityItem = ActivityItem(
    eventId: EventId,
    eventTimestampMs: int,
    seenAtMs: int,
    ingestSeq: Option<nat>,
    taskRunId: Option<RunId>,
    detail: string,
    durability: Durability)

  datatype PersistTaskRun = PersistTaskRun(
    taskRun: TaskRun, nativeSession: Option<RunKey>, createdAtMs: int, updatedAtMs: int, finishedAtMs: Option<int>)

  /** `RecordEvent` carries the event's projection, if its metadata is complete enough to have one. */
  datatype PersistOp =
    | RecordEvent(item: Option<ActivityItem>)
    | MergeTaskRuns(survivor: RunId, absorbed: RunId)
    | UpsertTaskRun(upserted: PersistTaskRun)
    | PromoteTaskRunKey(promoted: PersistTaskRun, oldKey: RunKey, aliasRunId: RunId)
    | RowOnly

  // ----- transformers of single tables, by which the methods of the domain model are specified

  function Drop<K, V>(m: map<K, V>, k: K): map<K, V> { m - {k} }

  /** Key owners after the record of `t` is inserted: the replaced record's key is released first. */
  function OwnersWith(taskRuns: map<RunId, TaskRun>, owners: map<RunKey, RunId>, t: TaskRun): map<RunKey, RunId> {
    var released :=
      if t.runId in taskRuns && taskRuns[t.runId].key in owners && owners[taskRuns[t.runId].key] == t.runId
      then Drop(owners, taskRuns[t.runId].key) else owners;
    released[t.key := t.runId]
  }

  function HistoryWith(history: map<RunId, RunHistory>, run: RunId): map<RunId, RunHistory> {
    if run in history then history else history[run := DEFAULT_HISTORY]
  }

  function WithTaskRun(m: Model, t: TaskRun): Model {
    m.(taskRuns := m.taskRuns[t.runId := t],
       history := HistoryWith(m.history, t.runId),
       keyOwner := OwnersWith(m.taskRuns, m.keyOwner, t))
  }

  function WithAlias(m: Model, key: RunKey, run: RunId): Model {
    m.(keyOwner := m.keyOwner[key := run])
  }

  function OwnersWithAliases(owners: map<RunKey, RunId>, keys: set<RunKey>, run: RunId): map<RunKey, RunId> {
    map k | k in owners.Keys + keys :: if k in keys then run else owners[k]
  }

  function MergedTelemetry(telemetry: map<RunId, Telemetry>, survivor: RunId, absorbed: RunId): map<RunId, Telemetry> {
    if absorbed !in telemetry then telemetry
    else
      var rest := Drop(telemetry, absorbed);
      rest[survivor := if survivor in rest then FoldedTelemetry(rest[survivor], telemetry[absorbed])
           else telemetry[absorbed]]
  }

  function MergedKinds(kinds: map<RunId, string>, survivor: RunId, absorbed: RunId): map<RunId, string> {
    if absorbed !in kinds then kinds
    else
      var rest := Drop(kinds, absorbed);
      if survivor in rest then rest else rest[survivor := kinds[absorbed]]
  }

  function HistoryAt(history: map<RunId, RunHistory>, run: RunId): RunHistory {
    if run in history then history[run] else DEFAULT_HISTORY
  }

  function MergedHistory(history: map<RunId, RunHistory>, survivor: RunId, absorbed: RunId): map<RunId, RunHistory> {
    var rest := Drop(history, absorbed);
    rest[survivor := FoldedHistory(HistoryAt(rest, survivor), HistoryAt(history, absorbed))]
  }

  function Redirect(p: Publication, survivor: RunId, absorbed: RunId): Publication {
    p.(canonicalRunId := Substitute(p.canonicalRunId, survivor, absorbed))
  }

  function Redirected(ps: map<RunId, Publication>, survivor: RunId, absorbed: RunId): map<RunId, Publication> {
    map r | r in ps :: Redirect(ps[r], survivor, absorbed)
  }

  /** A before-image is kept under the run it was captured from; an earlier one stays. */
  function Installed(ps: map<RunId, Publication>, p: Publication): map<RunId, Publication> {
    if p.taskRun.runId in ps then ps else ps[p.taskRun.runId := p]
  }

  /** The before-images that stand for other runs. */
  function Unreleased(ps: map<RunId, Publication>, run: RunId): map<RunId, Publication> {
    map r | r in ps && ps[r].canonicalRunId != run :: ps[r]
  }

  function TotalsAt(totals: map<RunId, RateTotals>, run: RunId): RateTotals {
    if run in totals then totals[run] else RateTotals(0, 0)
  }

  function MergedTotals(totals: map<RunId, RateTotals>, survivor: RunId, absorbed: RunId): map<RunId, RateTotals> {
    if absorbed !in totals then totals
    else
      var rest := Drop(totals, absorbed);
      rest[survivor := TotalsAt(rest, survivor).Plus(totals[absorbed])]
  }

  predicate TotalsSaturate(totals: map<RunId, RateTotals>, survivor: RunId, absorbed: RunId) {
    absorbed in totals && TotalsAt(Drop(totals, absorbed), survivor).Saturates(totals[absorbed])
  }

  function ReassignedExecution(e: Execution, survivor: RunId, absorbed: RunId): Execution {
    e.(taskRunId := Substitute(e.taskRunId, survivor, absorbed))
  }

  function ReassignedExecutions(rows: map<RowId, Execution>, survivor: RunId, absorbed: RunId): map<RowId, Execution> {
    map i | i in rows :: ReassignedExecution(rows[i], survivor, absorbed)
  }

  function ReassignedNode(n: AgentNode, survivor: RunId, absorbed: RunId): AgentNode {
    n.(taskRunId := Substitute(n.taskRunId, survivor, absorbed))
  }

  function ReassignedNodes(rows: map<RowId, AgentNode>, survivor: RunId, absorbed: RunId): map<RowId, AgentNode> {
    map i | i in rows :: ReassignedNode(rows[i], survivor, absorbed)
  }
}
