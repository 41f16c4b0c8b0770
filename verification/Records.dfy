/** What becomes of a run's own record, and of its durable half, when evidence is applied. */
module Records {
  import opened Types
  import opened Contraction
  import opened Entities
  import opened Identity
  import opened IdentityProofs

  // ----- bookkeeping

  /** The time of the last update never goes back; a run that is over keeps its first finish time, another has none. */
  ghost predicate Refreshed(before: TaskRun, after: TaskRun, at: int) {
    && after.updatedAtMs.Some? && at <= after.updatedAtMs.value
    && (before.updatedAtMs.Some? ==> before.updatedAtMs.value <= after.updatedAtMs.value)
    && (after.updatedAtMs.value == at || after.updatedAtMs == before.updatedAtMs)
    && if before.state in {Completed, Failed, Cancelled, EndedUnknown} then
         && after.finishedAtMs == Some(before.finishedAtMs.UnwrapOr(after.updatedAtMs.value))
         && after.dismissedAtMs == before.dismissedAtMs
       else after.finishedAtMs == None && after.dismissedAtMs == None
  }

  /** Nothing but the bookkeeping differs. */
  predicate SameIdentity(a: TaskRun, b: TaskRun) {
    && a.runId == b.runId && a.key == b.key && a.displayOrdinal == b.displayOrdinal && a.state == b.state
    && a.hasControllerTaskStateEvent == b.hasControllerTaskStateEvent && a.createdAtMs == b.createdAtMs
    && a.subject == b.subject
  }

  lemma TouchRefreshes(t: TaskRun, at: int)
    ensures SameIdentity(t, TouchedAt(t, at)) && Refreshed(t, TouchedAt(t, at), at)
  {
  }

  lemma TouchTwice(t: TaskRun, u: TaskRun, at: int)
    requires u == TouchedAt(t, at)
    ensures TouchedAt(u, at) == u
  {
  }

  // ----- binding

  /** A persisted run is the record itself, with the times it carries. */
  ghost predicate Persists(p: PersistTaskRun, t: TaskRun, session: Option<RunKey>, at: int) {
    && p.taskRun == t && p.nativeSession == session && p.finishedAtMs == t.finishedAtMs
    && Some(p.updatedAtMs) == t.updatedAtMs
    && p.createdAtMs == (if t.createdAtMs.Some? then t.createdAtMs.value else at)
  }

  /** One operation, a promotion exactly when a path was resolved, persists the run under its session. */
  ghost predicate PersistsBind(ops: seq<PersistOp>, before: TaskRun, t: TaskRun, key: RunKey, at: int,
                               aliasRunId: RunId) {
    && |ops| == 1
    && if before.key.NativePath? then
         && ops[0].PromoteTaskRunKey? && ops[0].oldKey == before.key && ops[0].aliasRunId == aliasRunId
         && Persists(ops[0].promoted, t, Some(key), at)
       else ops[0].UpsertTaskRun? && Persists(ops[0].upserted, t, Some(key), at)
  }

  function Rekeyed(t: TaskRun, key: RunKey): TaskRun { if t.key.Controller? then t else t.(key := key) }

  /** What a successful binding of a free key returns. */
  function Binding(m: Model, run: RunId, key: RunKey, at: int, aliasRunId: RunId): Outcome
    requires run in m.taskRuns
  {
    var t := m.taskRuns[run];
    var u := TouchedAt(Rekeyed(t, key), at);
    var durable := Persisted(u, Some(key), at);
    Outcome(if t.key.Controller? then WithTaskRun(WithAlias(m, key, run), u)
            else WithAlias(WithTaskRun(m, u), t.key, run),
            if t.key.NativePath? then [PromoteTaskRunKey(durable, t.key, aliasRunId)] else [UpsertTaskRun(durable)])
  }

  lemma BoundIs(m: Model, run: RunId, key: RunKey, at: int, aliasRunId: RunId)
    requires Bound(m, run, key, at, aliasRunId).Ok? && m.RunByKey(key).None? && !m.taskRuns[run].key.Native?
    ensures Bound(m, run, key, at, aliasRunId).value == Binding(m, run, key, at, aliasRunId)
  {
  }

  lemma NotYetNative(m: Model, run: RunId, key: RunKey, at: int, aliasRunId: RunId)
    requires IdentityInvariant(m) && Bound(m, run, key, at, aliasRunId).Ok? && m.RunByKey(key).None?
    ensures run in m.taskRuns && m.taskRuns[run].runId == run && !m.taskRuns[run].key.Native?
  {
  }

  lemma PersistedPersists(t: TaskRun, session: Option<RunKey>, at: int)
    requires t.updatedAtMs.Some?
    ensures Persists(Persisted(t, session, at), t, session, at)
  {
  }

  /** The record is refreshed, with the new key unless it is a Controller's, and exactly that record is made durable. */
  ghost predicate RecordsBind(m: Model, run: RunId, key: RunKey, at: int, aliasRunId: RunId, outcome: Outcome) {
    && run in m.taskRuns && run in outcome.model.taskRuns
    && var t, u := m.taskRuns[run], outcome.model.taskRuns[run];
       && SameIdentity(u, if t.key.Controller? then t else t.(key := key)) && Refreshed(t, u, at)
       && PersistsBind(outcome.ops, t, u, key, at, aliasRunId)
  }

  lemma StoredRecord(m: Model, u: TaskRun, k: RunKey, run: RunId)
    ensures WithTaskRun(WithAlias(m, k, run), u).taskRuns == m.taskRuns[u.runId := u]
    ensures WithAlias(WithTaskRun(m, u), k, run).taskRuns == m.taskRuns[u.runId := u]
  {
  }

  lemma BindingStores(m: Model, run: RunId, key: RunKey, at: int, aliasRunId: RunId, u: TaskRun)
    requires run in m.taskRuns && u == TouchedAt(Rekeyed(m.taskRuns[run], key), at) && u.runId == run
    ensures run in Binding(m, run, key, at, aliasRunId).model.taskRuns
    ensures Binding(m, run, key, at, aliasRunId).model.taskRuns[run] == u
  {
    StoredRecord(m, u, key, run);
    StoredRecord(m, u, m.taskRuns[run].key, run);
  }

  lemma RekeyedRefreshes(t: TaskRun, key: RunKey, at: int)
    ensures var u := TouchedAt(Rekeyed(t, key), at);
            SameIdentity(u, if t.key.Controller? then t else t.(key := key)) && Refreshed(t, u, at)
  {
    TouchRefreshes(t, at);
    TouchRefreshes(t.(key := key), at);
  }

  lemma BindingPersists(m: Model, run: RunId, key: RunKey, at: int, aliasRunId: RunId, u: TaskRun)
    requires run in m.taskRuns && u == TouchedAt(Rekeyed(m.taskRuns[run], key), at) && u.updatedAtMs.Some?
    ensures PersistsBind(Binding(m, run, key, at, aliasRunId).ops, m.taskRuns[run], u, key, at, aliasRunId)
  {
    PersistedPersists(u, Some(key), at);
  }

  lemma BindingRecords(m: Model, run: RunId, key: RunKey, at: int, aliasRunId: RunId)
    requires run in m.taskRuns && m.taskRuns[run].runId == run
    ensures RecordsBind(m, run, key, at, aliasRunId, Binding(m, run, key, at, aliasRunId))
  {
    RekeyedRefreshes(m.taskRuns[run], key, at);
    var u := TouchedAt(Rekeyed(m.taskRuns[run], key), at);
    BindingStores(m, run, key, at, aliasRunId, u);
    BindingPersists(m, run, key, at, aliasRunId, u);
  }

  /** A new binding changes of the record the key, unless it is a Controller's, and the bookkeeping. */
  lemma BoundRecord(m: Model, run: RunId, key: RunKey, at: int, aliasRunId: RunId)
    requires IdentityInvariant(m) && Bound(m, run, key, at, aliasRunId).Ok? && m.RunByKey(key).None?
    ensures RecordsBind(m, run, key, at, aliasRunId, Bound(m, run, key, at, aliasRunId).value)
  {
    NotYetNative(m, run, key, at, aliasRunId);
    BoundIs(m, run, key, at, aliasRunId);
    BindingRecords(m, run, key, at, aliasRunId);
  }

  // ----- merging

  lemma MarkedSurvivor(m: Model, s: RunId, a: RunId, at: int)
    requires Mergeable(m, s, a)
    ensures var t, marked := m.taskRuns[s], WithControllerEvidence(m, s, a, at);
            && s in marked.taskRuns
            && marked.taskRuns[s] == if m.taskRuns[a].hasControllerTaskStateEvent
                                     then TouchedAt(t.(hasControllerTaskStateEvent := true), at) else t
  {
  }

  /** The survivor's record is its own, with the Controller evidence of both, and refreshed. */
  lemma MergedRecord(m: Model, s: RunId, a: RunId, at: int)
    requires Mergeable(m, s, a)
    ensures var t, after := m.taskRuns[s], MergeApplied(m, s, a, at);
            && s in after.taskRuns
            && SameIdentity(after.taskRuns[s],
                            t.(hasControllerTaskStateEvent :=
                                 t.hasControllerTaskStateEvent || m.taskRuns[a].hasControllerTaskStateEvent))
            && Refreshed(t, after.taskRuns[s], at)
  {
    var t := m.taskRuns[s];
    var u := t.(hasControllerTaskStateEvent := true);
    MarkedSurvivor(m, s, a, at);
    MergedRecords(m, s, a, ImageGraphs(m, s, a), at);
    TouchRefreshes(t, at);
    TouchRefreshes(u, at);
    TouchTwice(u, TouchedAt(u, at), at);
  }

  lemma SurvivorSession(m: Model, s: RunId, a: RunId, after: Model, k: RunKey)
    requires IdentityInvariant(after) && s in after.taskRuns
    requires after.keyOwner == map x | x in m.keyOwner :: Substitute(m.keyOwner[x], s, a)
    ensures SingleNativeBinding(after, s).Ok?
    ensures SingleNativeBinding(after, s).value == Some(k)
            <==> k.Native? && k in m.keyOwner && (m.keyOwner[k] == s || m.keyOwner[k] == a)
  {
    SingleSession(after, s);
    assert k in NativeBindings(after, s) <==> k.Native? && k in after.keyOwner && after.keyOwner[k] == s;
  }

  /** The native session of either of two runs. */
  ghost predicate EitherSession(m: Model, s: RunId, a: RunId, session: Option<RunKey>) {
    forall k :: session == Some(k) <==> k.Native? && k in m.keyOwner && (m.keyOwner[k] == s || m.keyOwner[k] == a)
  }

  lemma MergedSession(m: Model, s: RunId, a: RunId, at: int, after: Model)
    requires IdentityInvariant(m) && MergeAccepted(m, s, a) && after == MergeApplied(m, s, a, at) && s in after.taskRuns
    ensures SingleNativeBinding(after, s).Ok? && EitherSession(m, s, a, SingleNativeBinding(after, s).value)
  {
    MergeMovesKeys(m, s, a, at);
    MergeKeepsInvariant(m, s, a, at);
    SingleSession(after, s);
    forall k ensures SingleNativeBinding(after, s).value == Some(k)
                     <==> k.Native? && k in m.keyOwner && (m.keyOwner[k] == s || m.keyOwner[k] == a)
    {
      SurvivorSession(m, s, a, after, k);
    }
  }

  /** Applying a merge makes durable the merge itself and the survivor's record, with the session that either had. */
  lemma MergePersists(m: Model, s: RunId, a: RunId, at: int, aliasRunId: RunId, after: Model, r: Applying)
    requires IdentityInvariant(m) && MergeAccepted(m, s, a) && Applied(m, Merge(s, a), at, aliasRunId, after, r)
    ensures r.Ok? && |r.value| == 2 && r.value[0] == MergeTaskRuns(s, a) && r.value[1].UpsertTaskRun?
    ensures s in after.taskRuns
    ensures EitherSession(m, s, a, r.value[1].upserted.nativeSession)
    ensures Persists(r.value[1].upserted, after.taskRuns[s], r.value[1].upserted.nativeSession, at)
  {
    MergedRecord(m, s, a, at);
    PersistedPersists(after.taskRuns[s], SingleNativeBinding(after, s).value, at);
    MergedSession(m, s, a, at, after);
  }
}
