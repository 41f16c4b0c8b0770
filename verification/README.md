# The herdr-top kernel, modelled and verified

This project models the identity and graph kernel of herdr-top and the state machines around it, and proves
properties of the model. `dafny verify dfyconfig.toml` checks everything. The repository is written in Rust; a citation
`src/...` below is a path in it.

What is modelled, one module per component:

- **Identity kernel** (`Digraph`, `Contraction`, `Entities`, `Domain`, `Identity`, `IdentityProofs`, `Evidence`,
  `Records`). Evidence about a task run yields a binding plan; a plan adds or promotes a key, or contracts two runs
  into one and rewrites both edge sets, the key table, executions, agent nodes and all per-run state.
  `Domain.DomainModel` is the mutable model; every method is specified by a transformer of its value. The graph checks
  run Kahn's algorithm on edge lists with duplicates and self-loops. `IdentityProofs` gives the run-level safety
  theorems, `Evidence` says when a plan does what and that evidence takes effect, `Records` what becomes of a run's
  record and its durable half.
- **Merged state** (`Folds`, `Sums`, `Conservation`, `MergedState`). What merges make of telemetry, totals, lifecycle
  state, kinds, cursors, rows, edges and before-images, as sums, extremes and first values over the runs merged.
- **History quarantine** (`History`, `Quarantine`, `QuarantineRuns`, `Diff`). Publication removes runs whose history
  is incomplete and puts captured before-images back; the diff between two models reports the runs whose projection
  changed.
- **Controller rendezvous** (`Rendezvous`, `RendezvousProgress`, `RendezvousClients`). Any number of processes
  interleave atomic file-system steps on one shared directory; session names may collide on the hash that names
  sentinel and socket.
- **Operator projection** (`ActivityOrder`, `Operator`, `OperatorProofs`, `OperatorHistory`, `OperatorLimits`,
  `OperatorMarks`, `OperatorLineage`, `OperatorTimes`, `OperatorPublication`). A bounded, deduplicated, sorted
  activity buffer in a private and a published version, against an unbounded last-write-per-identity history.
- **Performance tracker** (`Performance`, `PerformanceProofs`). Out-of-order completion, a pruned queue of rated
  admissions, and a latching lag generation, over whole traces.
- **Graph and read models** (`Components`, `Visibility`, `Status`, `StatusMeaning`). Component counting by depth-first
  search, the closure of visible runs over execution ancestors, and a filtered projection against the full one.
- **Paths and versions** (`Paths`, `PathForms`, `Versions`). Reversible path escaping over bytes with UTF-8 decoding
  as section 4 of RFC 3629 defines it, and comparison of version cores of any length (items 2 and 11 of Semantic
  Versioning 2.0.0).

Modelling decisions that hold throughout: identifiers are natural numbers of which only equality and the order are
used; `HashMap` and `HashSet` iteration is an arbitrary choice (`:|`), so every result is proved for all orders; a
`Result` stands for the program's errors; integer widths are unbounded except where the program saturates or clamps,
which is written out; the clock, ids handed out and configured windows are parameters.

Results worth knowing before reading the proofs:

- The edge checks of a merge accept exactly when the image of the edge set under absorbed-to-survivor is a forest
  (dispatch) or acyclic (dependencies); on a reachable model that is exactly when no path joins the pair and their
  parents agree (`MergeAcceptedByPaths`).
- Planning is decided by three situations: it rests exactly when the evidence is in effect already, binds exactly when
  the session key is free for the run, and merges exactly when another run has the session or the terminal and the two
  may be joined; all else is a conflict that reports something true (`PlansExactly`, `ConflictsAreTrue`). A plan that is
  no conflict takes effect: afterwards the session key and the run's former key resolve to one run, for ever
  (`EvidenceTakesEffect`, `JoinedForGood`).
- Merging loses nothing: over every run of the system the counters and totals of a run are the clamped sums, its start the
  least, its gauges and kind the first, and its lifecycle state the latest of what the runs merged into it began with
  (`RunsConserve`), and executions, agent nodes, edges and before-images follow their runs (`ExecutionsFollowMerges`).
- A client of a session whose name the sentinel holds is never refused and is available after two steps of its own,
  whatever any other process does (`ClientsResolve`).
- Removing a run's projection and restoring its capture is the identity exactly on runs that are addressable by their
  own key, carry lifecycle state and have totals within the durable domain (`RoundTrip`).
- While runs are in quarantine their rows may change in any way and they may merge with each other or with live runs, live
  rows may change, more runs may be captured and hidden, and drains may end: every snapshot still shows live rows as they
  are and hidden runs as they were captured (`QuarantineHolds`), although merges leave fewer blocked runs than
  before-images. A change of live rows is one that leaves the captures of hidden runs as they are in what is shown
  (`LiveUpdateIsPossible` is an instance). A run is captured later only if its edges are all shown and no earlier image
  of it is left.
- The bounded buffer stays the top of the unbounded history, but for durability marks, over every run of live and
  historical submissions, merges, completions and publications in which no record sorts later than the buffered version
  it replaces (`RunShowsHistory`). The buffer alone decides whether recording one event is safe: it is, for every history
  with that buffer, unless the buffer is full, holds a version of the event, and the event falls behind its last item
  with room for another event between them (`RecordIsSafeExactly`). `LateRecordingLosesAnEvent` is a run from empty
  after which the buffer is wrong.
- Durability marks can go wrong as well, because an event that leaves the buffer is no longer known to be open.
  `RevivalMissesAMark` is such a run from empty. Over orderly runs the marks stay right if and only if no submission
  brings back into the buffer an event that a submission of the other kind still has open but the buffer has forgotten
  (`RunRefinesExactly`). The buffer alone decides whether this can happen: a submission is safe for every history with
  that buffer if and only if the buffer is not full, or every event the batch brings into it was held or is still open
  there (`MarksAreSafeExactly`; `RecordMarksAreSafeExactly` for one event). An evicted event may otherwise be recorded
  again without harm.
- Over every run, orderly or not, a buffered event is the latest version recorded of it, but for durability, and belongs to
  what the run it was recorded for has become through the merges since (`BufferShowsLatest`); the history is exactly the
  set of these versions (`HistoryIsLatest`). A publication shows the top of the private items that no remaining drain and
  no run last finalized as not ready holds back, and of the others as published before (`PublicationShows`).
- Event lag is reported exactly while some generation, opened by a sample that saw more than a second of lag with no
  earlier generation outstanding, still has an event pending (`LagReportedExactly`).

## Model

| member | source | states |
|---|---|---|
| Digraph.GraphHasCycle | src/identity.rs:766-796 | terminates and returns true if and only if the edge list, with duplicates and self-loops, has a directed cycle, for every table order; the guard against lowering a zero in-degree is never taken |
| Digraph.NoSourceIsCyclic | src/identity.rs:785-796 | vertices that all keep a predecessor among themselves hold a cycle, which is why a short visit count means one |
| Contraction.ContractionCycle | src/identity.rs:699-764 | contracting two vertices of an acyclic graph closes a cycle exactly when they are joined by an edge path in either direction |
| Contraction.ForestContraction | src/identity.rs:699-737 | the contracted dispatch edges are a forest exactly when no path joins the pair and their parents agree |
| Contraction.DagContraction | src/identity.rs:739-764 | the contracted dependency edges are acyclic exactly when no path joins the pair |
| Contraction.InsertionCycle | src/identity.rs:326-380 | adding an edge to an acyclic graph closes a cycle exactly when it is a loop or its end already reaches its start |
| Contraction.ForestInsertion | src/identity.rs:326-360 | a dispatch edge keeps a forest exactly when it is no loop, its child has no other parent, and it closes no cycle |
| Contraction.DagInsertion | src/identity.rs:362-380 | a dependency edge keeps the graph acyclic exactly when it is no loop and its end does not already reach its start |
| Identity.PreflightExecutionEdge | src/identity.rs:326-360 | refuses exactly the edges that would break the forest, with a conflict that is true of the edges |
| Identity.PreflightDependencyEdge | src/identity.rs:362-380 | refuses exactly the edges that would close a dependency cycle or loop |
| Identity.FindSingleNativeBinding | src/identity.rs:676-697 | the run's one native session, none, or the conflict when it owns several, whatever the table order |
| Identity.ContractExecutionEdges | src/identity.rs:699-737 | succeeds exactly when the image of the edges under absorbed-to-survivor is a forest, and then returns exactly that image |
| Identity.ContractDependencyEdges | src/identity.rs:739-764 | succeeds exactly when the image is acyclic without self-edges, and then returns exactly that image |
| Identity.PreflightMerge | src/identity.rs:621-665 | accepts exactly when identity, dispatch and dependency conditions hold, returns both images, and otherwise reports a condition that fails, in the order of the checks |
| Identity.PlanBinding | src/identity.rs:194-269 | the plan is the one the evidence decides, with a merge proposed only if its preflight accepts |
| Identity.ApplyBind | src/identity.rs:527-607 | binds, promotes or does nothing with the exact new state and durable operations, or refuses and leaves the model as it was |
| Identity.MergeInMemory | src/identity.rs:810-862 | the whole state after a merge: folded per-run state, moved keys, reassigned rows, installed edge images |
| Identity.MergedSingleBinding | src/identity.rs:303-322 | after any accepted merge the lookup of the survivor's native session cannot fail |
| Identity.ApplyMerge | src/identity.rs:284-324 | succeeds exactly when the preflight accepts, with the exact state and durable operations |
| Identity.ApplyBindingPlanAt | src/identity.rs:284-324 | every plan is applied to its exact outcome, and an error leaves the model unchanged |
| Domain.DomainModel.InsertTaskRun | src/model/entities.rs:1016-1028 | the record, its key and its lifecycle state after an insert; the replaced record's key is released only if it still resolves to the run |
| Domain.DomainModel.FoldHistory | src/model/entities.rs:1280-1295 | the survivor's lifecycle state is the fold of both, the absorbed entry is gone |
| Domain.DomainModel.RedirectPublications | src/model/entities.rs:1296-1300 | before-images of the absorbed run now belong to the survivor, others are untouched |
| Domain.DomainModel.InstallHistoryPublication | src/model/entities.rs:1102-1115 | a before-image is kept under the run it was captured from unless there is one already |
| Domain.DomainModel.ReleaseHistoryPublications | src/model/entities.rs:1117-1122 | exactly the before-images that stand for the run are dropped, and the answer says whether there were any |
| Domain.DomainModel.FoldTelemetry | src/model/entities.rs:1338-1376 | the survivor's telemetry is the fold of both, the absorbed entry is gone |
| Domain.DomainModel.FoldRateTotals | src/model/entities.rs:1303-1308 | totals are added with clamping, and the saturation counter counts exactly the clamped merges |
| Domain.DomainModel.RemoveTaskRunRecord | src/model/entities.rs:1453-1459 | the record, its lifecycle state, totals and cursor go, nothing else changes |
| Folds.TelemetryFoldIsAssociative | src/model/entities.rs:1338-1376 | merging three runs gives the same telemetry however the merges are nested |
| Folds.AppendedTurns | src/model/entities.rs:1371-1375 | appended turn attributions keep the canonical ones in front and never repeat one in a row |
| Folds.HistoryFoldIsAssociative | src/model/entities.rs:1280-1295 | the session end that survives any nesting of merges is the one with the greatest watermark |
| Folds.TotalsFoldIsAssociative | src/model/entities.rs:1240-1252 | merging three runs gives the same totals however the merges are nested, clamping included |
| Folds.SaturatedExactly | src/model/entities.rs:1240-1252 | a merge is counted as saturated exactly when the stored totals are not the exact sum |
| IdentityProofs.EmptyIsGood | src/model/entities.rs:742-774 | the empty model satisfies the whole invariant |
| IdentityProofs.ApplicationIsAStep | src/identity.rs:284-324 | everything the application method may do is the step of the transition system |
| IdentityProofs.StepKeepsGood | src/identity.rs:284-380 | one applied plan, insert, update, admitted edge, or installed or released before-image keeps forest, acyclicity, the identity invariant, and silence about absorbed runs |
| IdentityProofs.RunsStayGood | src/identity.rs:284-380 | the same over every sequence of operations |
| IdentityProofs.MergeMovesKeys | src/identity.rs:810-862 | a merge makes exactly the absorbed run's keys resolve to the survivor and changes no other key |
| IdentityProofs.MergeForgets | src/identity.rs:810-862 | after a merge no row, edge, key or table names the absorbed run and no before-image stands for it, and no other run is newly named or stood for; an image keeps the identifier it was captured under |
| IdentityProofs.KeysFollowMerges | src/identity.rs:810-862 | a key that once resolved resolves for ever, to the survivor of its run along the chain of merges |
| IdentityProofs.PlansApply | src/identity.rs:194-324 | a bind or merge planned on a model with the invariant is applied without error |
| IdentityProofs.ReplanningIsQuiet | src/identity.rs:194-269 | planning the same evidence after applying its plan never binds or merges again |
| IdentityProofs.MergeAcceptedByPaths | src/identity.rs:621-665 | on a model kept by the system a merge is accepted exactly when identities allow it, no path joins the pair, and their parents agree |
| Evidence.PlansExactly | src/identity.rs:381-525 | on a model with the invariant a plan rests exactly when the evidence is in effect, binds exactly when its key is free for the run, and merges exactly the pair the evidence calls for if the merge is accepted |
| Evidence.ConflictsAreTrue | src/identity.rs:194-269 | any other plan is a conflict, and what it reports is true of the evidence or of the merge it asks for |
| Evidence.EvidenceTakesEffect | src/identity.rs:194-324 | applying a plan that is no conflict succeeds, and then the session key and the run's former key resolve to one run, or no other run is live in the terminal |
| Evidence.JoinedForGood | src/identity.rs:194-324 | over every later run of the system the two keys resolve to one run |
| Evidence.IdentitiesAllowExactly | src/identity.rs:621-665 | identities allow a merge exactly when the runs are known and different, the absorbed key does not outrank the survivor's, none absorbed is Controller-keyed, and at most one of the two has a session |
| Evidence.IdentityRefusalIsTrue | src/identity.rs:621-665 | each refusal on account of identities reports what is so |
| Records.BoundRecord | src/identity.rs:527-607 | a new binding changes of the record only the key, unless it is a Controller's, and the bookkeeping; one operation persists exactly that record under its session, a promotion when a path was resolved |
| Records.MergedRecord | src/identity.rs:810-862 | the survivor's record is its own with the Controller evidence of both; its update time never goes back and a run that is over keeps its first finish time |
| Records.MergePersists | src/identity.rs:284-324 | an applied merge persists the merge and then the survivor's record with the session that either run had |
| Conservation.CombinedTelemetry | src/model/entities.rs:1338-1376 | folding telemetry of two groups of runs gives that of both groups: clamped sums, absent only if absent everywhere, the least start, the first gauge of each kind, and the turns without repeats |
| Conservation.CombinedTotals | src/model/state.rs:102-135 | the same for rate totals, as sums clamped to what can be stored |
| Conservation.CombinedHistory | src/model/entities.rs:1280-1295 | the same for lifecycle state: ready if any is, the latest provider time, and the session end of the first part with the greatest watermark |
| MergedState.MergeCombines | src/identity.rs:810-862 | after one merge the survivor holds the combination of both runs in every table, and no other run's entries change |
| MergedState.RunsConserve | src/identity.rs:810-862 | over every run of the system each run holds the combination of what its parts began with, and a rate cursor only if nothing was merged |
| MergedState.PartsFollow | src/identity.rs:810-862 | the parts of a run are exactly the runs that lead to it along the chain of merges |
| MergedState.MergeCountsSaturation | src/model/entities.rs:1240-1252 | a merge counts as saturated exactly when the totals it stores are not the exact sum |
| MergedState.ExecutionsFollowMerges | src/identity.rs:847-851 | over every run no execution is lost or altered, it only moves to what its run has become |
| MergedState.NodesFollowMerges | src/identity.rs:852-856 | the same for agent nodes |
| MergedState.EdgesFollowMerges | src/identity.rs:857-858 | no edge is lost, its ends follow their runs |
| MergedState.ImagesFollowMerges | src/model/entities.rs:1102-1115 | until images are released the first of a run stays, and stands for what its run has become |
| History.RemoveTaskRunProjection | src/model/entities.rs:815-831 | exactly the rows, keys, edges and table entries of one run are gone |
| History.RestoreHistoryPublication | src/model/entities.rs:833-859 | the exact model after one before-image is put back |
| History.RestoredCapture | src/model/entities.rs:815-859 | what removing a run and restoring its capture yields on any model |
| History.RestoredTotals | src/model/entities.rs:1229-1239 | restored totals are brought into the stored range, and counted as saturated exactly when they were outside it |
| History.RoundTrip | src/model/entities.rs:815-859 | removing and restoring the capture is the identity if and only if the run is addressable by its own key, has lifecycle state and totals within the durable domain |
| History.PublicationSnapshot | src/model/entities.rs:781-813 | the snapshot is the model without blocked runs, with the before-images of blocked runs restored in some order, and its dangling components are counted anew when runs were hidden; the model itself is unchanged |
| Quarantine.RestoreCommutes | src/model/entities.rs:833-859 | restoring two non-overlapping before-images commutes |
| Quarantine.OrderIndependent | src/model/entities.rs:796-804 | non-overlapping before-images give one model in every order |
| Quarantine.BlockedRowsAreHidden | src/model/entities.rs:781-813 | two models that differ only in rows of blocked runs, with the same non-overlapping before-images, publish equal projections |
| Quarantine.QuarantineShowsCaptures | src/model/entities.rs:781-813 | a model whose blocked runs are what is left of the hidden ones, and whose images are their captures for whatever runs they stand for, publishes the model the captures were taken from |
| Quarantine.RewriteStaysBehind | src/model/entities.rs:781-813 | any change of the rows of blocked runs stays hidden in this way |
| QuarantineRuns.MergeStaysBehind | src/model/entities.rs:1280-1301 | so does a merge of two blocked runs, after which the absorbed run's image stands for the survivor |
| QuarantineRuns.CoverStaysBehind | src/model/entities.rs:1047-1115 | more runs may be captured, before-images installed, and their history marked incomplete while others are hidden |
| QuarantineRuns.FinishLeaves | src/model/entities.rs:1117-1122 | when the drain of a run ends it is no longer blocked, and exactly the images that stand for other blocked runs stay |
| QuarantineRuns.JoinLeaves | src/model/entities.rs:1280-1301 | when a blocked run merges with a live one, in either direction, neither is blocked afterwards, and the images of the other blocked runs stay |
| QuarantineRuns.LeftStayBehind | src/model/entities.rs:781-813 | in both cases the runs still hidden stay behind their captures |
| QuarantineRuns.LiveUpdateIsPossible | src/model/entities.rs:1016-1028 | an update of the record of a live run, made during a quarantine, is shown at once and leaves every capture as it was |
| QuarantineRuns.QuarantineHolds | src/model/entities.rs:781-813 | over any run of row changes and merges of blocked runs, changes of live rows, merges with live runs, new captures and ended drains, every snapshot shows live rows as they are then and each hidden run as it was captured |
| Quarantine.QuarantineIsInvisible | src/model/entities.rs:781-813 | putting any restorable runs in quarantine behind their captures leaves the published projection as it was |
| Quarantine.CapturesAreDisjoint | src/model/entities.rs:1047-1100 | captures taken from one model never overlap |
| Diff.CollectChangedMapKeys | src/model/entities.rs:1517-1532 | adds exactly the keys present on one side only or with different values |
| Diff.CollectChangedOwnedRows | src/model/entities.rs:1534-1553 | adds exactly the owners, old and new, of rows that appeared, disappeared or changed |
| Diff.ChangedTaskRunIdsSince | src/model/entities.rs:1138-1195 | the reported set, over tables, rows that change owner, moved keys and edges on either side |
| Diff.ChangedExactly | src/model/entities.rs:1138-1195 | a run is reported if and only if something keyed by it, owned by it or incident to it differs |
| Diff.UnreportedRunsAreUnchanged | src/model/entities.rs:1138-1195 | a run that is not reported has the same capture in both models |
| Rendezvous.StepKeeps | src/rendezvous.rs:445-787 | every enabled step of any process keeps the protocol invariant |
| Rendezvous.RunKeeps | src/rendezvous.rs:445-787 | the invariant holds in every world of every interleaving |
| Rendezvous.OneOwnerPerPath | src/rendezvous.rs:445-575 | at most one live owner is bound per socket path, the path entry is its own socket, open from its listening on, and the sentinel holds exactly its name |
| Rendezvous.SentinelsNeverChange | src/rendezvous.rs:696-758 | a published sentinel holds one complete name with that hash and never changes afterwards |
| Rendezvous.LiveSocketsSurvive | src/rendezvous.rs:659-687 | no step of another process removes, replaces or silences a bound owner's socket |
| Rendezvous.OnlyDeadSocketsUnlinked | src/rendezvous.rs:760-787 | a socket entry disappears only when nothing listens on it, and is never replaced |
| Rendezvous.NoLiveRival | src/rendezvous.rs:760-787 | under the lock an admitted owner that is not bound never meets a live endpoint at its path |
| Rendezvous.RefusedOnlyByCollision | src/rendezvous.rs:445-575 | an owner is refused only when the sentinel names another session with the same hash |
| Rendezvous.ShutdownFreesPath | src/rendezvous.rs:577-586 | an orderly shutdown leaves the path free while the lock is still held |
| Rendezvous.ResolvedEndpointIsOurs | src/rendezvous.rs:588-637 | once a client has resolved an endpoint, only owners of the client's own session are ever bound there |
| RendezvousProgress.EveryScheduleAnswers | src/rendezvous.rs:445-575 | every schedule of an owner running alone from a reachable world takes at most fifteen steps more than its name has characters, never gets stuck before the answer, and an answer is service exactly when the sentinel is not another session's, and else a collision |
| RendezvousProgress.OwnerIsAnswered | src/rendezvous.rs:445-575 | an owner running alone can always have its answer |
| RendezvousProgress.FirstOwnerServes | src/rendezvous.rs:445-575 | a first owner, running alone, ends bound and serving |
| RendezvousClients.StatAnswers | src/rendezvous.rs:605-612 | a client's first look refuses it exactly when there is no sentinel |
| RendezvousClients.ReadAnswers | src/rendezvous.rs:618-636 | a client's read answers that the endpoint is available exactly when the sentinel holds its name at that step, and else reports the name found |
| RendezvousClients.ClientsResolve | src/rendezvous.rs:588-637 | once the sentinel holds its name a client is never refused under any interleaving, can always move, and is available exactly after its own steps |
| RendezvousClients.ClientsOfOwnersResolve | src/rendezvous.rs:588-637 | in particular beside a bound owner of its session, after two steps |
| RendezvousClients.MismatchIsTrue | src/rendezvous.rs:630-635 | a client told of another name is told the truth, and it stays true |
| RendezvousClients.OwnersAdvance | src/rendezvous.rs:445-575 | under any interleaving an owner with its lock can always move, its own steps bring it nearer to service or a collision, and others leave it where it is |
| RendezvousClients.ShutdownAdvances | src/rendezvous.rs:577-586 | under any interleaving an orderly shutdown takes two steps of the owner, after which the path is free |
| RendezvousClients.ForeignEntriesAreRefused | src/rendezvous.rs:464-532 | whatever the directory holds, a socket without sentinel, another name, a live endpoint or an occupied path refuses the owner with that reason and leaves the directory as it is |
| RendezvousClients.ForeignSocketsAreLeft | src/rendezvous.rs:659-687 | a shutdown leaves a socket alone that is not the one recorded |
| RendezvousClients.ProofsPrecedeRemovals | src/rendezvous.rs:512-530 | in any directory a process comes to removing a socket only through a refused connection and an entry still there, or an entry still its own |
| RendezvousClients.RemovalsAreProven | src/rendezvous.rs:659-787 | no other step of any process removes a socket entry |
| ActivityOrder.BeforeIsTotalOrder | src/operator.rs:446-454 | the comparison is a strict order, total on different identities |
| ActivityOrder.NormalizeActivity | src/operator.rs:439-444 | sort, keep the first of each identity, cut to the limit, as one function of the list |
| ActivityOrder.NormalizedIsNormal | src/operator.rs:439-444 | whatever list is given, the result is strictly sorted, without repeated identities, within the limit |
| ActivityOrder.NormalizedKeepsNewest | src/operator.rs:439-444 | of each identity kept, the version kept comes after no other version given |
| ActivityOrder.NormalizedIsTop | src/operator.rs:439-444 | on distinct identities the result is the first ten thousand items of the whole |
| ActivityOrder.NormalizedIsNewest | src/operator.rs:439-454 | the result is in order of age by the item's fields, newest first, and an identity left out is older than everything in the then full result |
| ActivityOrder.TopIsUnique | src/operator.rs:439-454 | a history has only one such list |
| Operator.MergeTerminalTimes | src/operator.rs:329-345 | the earlier time moves to the survivor, and the flag says exactly whether the table changed |
| Operator.ApplyTerminalTime | src/operator.rs:311-327 | the first terminal time is kept, a reopened run loses it, and the flag says exactly whether the table changed |
| Operator.ApplySubmissionTo | src/operator.rs:253-309 | the two passes over a batch: records first, then merges and upserts, with the identities touched |
| Operator.ChangedIsSound | src/operator.rs:253-309 | a submission that reports no change has changed neither items nor terminal times |
| Operator.ReclassifyPending | src/operator.rs:359-372 | exactly the pending identities get the outcome's durability, and the flag says whether anything changed |
| Operator.OperatorProjection.constructor | src/operator.rs:42-67 | both buffers start as the normalized restored items, and receivers see the published one |
| Operator.OperatorProjection.ApplySubmission | src/operator.rs:103-121 | a live submission acts on both buffers alike; receivers always see the published state |
| Operator.OperatorProjection.ApplySubmissionWithoutPublishing | src/operator.rs:123-151 | a historical submission changes private state only and keeps the drain's identities that the buffer still holds |
| Operator.OperatorProjection.CompleteSubmission | src/operator.rs:153-167 | both buffers are reclassified by their own pending identities, which are then cleared |
| Operator.OperatorProjection.CompleteSubmissionWithoutPublishing | src/operator.rs:169-183 | private items are reclassified, and the identities stay pending unless the write was durable |
| Operator.OperatorProjection.PublishAccumulated | src/operator.rs:186-236 | finished drains and runs are released, and the published state becomes the visible private items with hidden ones as published before |
| OperatorProofs.StepRefinesExactly | src/operator.rs:103-183 | an orderly live or historical submission or completion leaves the buffer the first ten thousand entries of the history, with the same of them open in both pending sets, if and only if it brings back no event that a submission of the other kind has open in the history and no longer in the buffer |
| OperatorProofs.RunRefinesExactly | src/operator.rs:103-183 | over any run in which no record sorts later than the buffered version it replaces, buffer and history agree after every step, marks included, if and only if no step brings back such an event |
| OperatorHistory.RunShowsHistory | src/operator.rs:103-309 | over any such run, with no further condition, the buffer is the top of a set that equals the history up to durability marks, and without marks the buffer is the top of the history |
| OperatorHistory.BufferIsNormalizedHistory | src/operator.rs:439-444 | from empty, and without marks, the buffer equals the normalized list of the whole history |
| OperatorHistory.UncompletedRunIsExact | src/operator.rs:253-309 | as long as no submission is completed, marks included, the buffer is the top of the history |
| OperatorProofs.ShownFollowsLive | src/operator.rs:103-183 | between publications the published state is what the live steps alone make of it |
| OperatorProofs.HistoryStaysHidden | src/operator.rs:123-183 | any number of historical submissions and completions leaves the published state untouched |
| OperatorLimits.RecordKeepsTopExactly | src/operator.rs:253-271 | for a given history, recording one event keeps the buffer its top if and only if no buffered version is replaced by one behind an item missing from the buffer |
| OperatorLimits.RecordIsSafeExactly | src/operator.rs:253-271 | recording one event keeps the buffer the top of every history it is the top of, if and only if the buffer has room, holds no version of it, or the event does not fall behind the last item with room for another event between them |
| OperatorLimits.LateRecordingLosesAnEvent | src/operator.rs:253-271 | a run of single-event submissions from empty whose last, late record leaves the buffer wrong |
| OperatorMarks.AgreementIsNeeded | src/operator.rs:169-183 | completing a historical submission leaves the buffer the top of the history for every outcome of the write, if and only if both have the same buffered events open |
| OperatorMarks.LiveAgreementIsNeeded | src/operator.rs:153-167 | the same for the completion of a live submission |
| OperatorMarks.MarksAreSafeExactly | src/operator.rs:103-151 | an orderly submission keeps the marks right for every history the buffer may come from, if and only if the buffer is not full or every event the batch brings into it was held by it or is open in it for the other kind of submission |
| OperatorMarks.RecordKeepsMarksExactly | src/operator.rs:253-271 | for a given history, recording one event that displaces nothing keeps marks right if and only if it does not bring back an open event the buffer has forgotten |
| OperatorMarks.RecordMarksAreSafeExactly | src/operator.rs:253-271 | the same for every history the buffer may come from, decided by the buffer: it is not full, holds the event, has it open, or the event does not sort before its last item |
| OperatorMarks.SafeBufferIsNormalizedHistory | src/operator.rs:439-444 | from empty, over runs whose every step is safe by the buffer alone, the buffer equals the normalized list of the whole history, marks included |
| OperatorMarks.RevivalMissesAMark | src/operator.rs:123-183 | an orderly run from empty in which a revived event misses the mark of a failed historical merge |
| OperatorLineage.SubmittedCarries | src/operator.rs:253-309 | before it is cut, the buffer holds of each event the last version of the batch or the one held before, in the run its own has become through the merges; open are exactly the events recorded or moved |
| OperatorLineage.SubmissionShows | src/operator.rs:253-309 | after a submission the buffer is the top of exactly these versions |
| OperatorLineage.AbsorbedRunsAreGone | src/operator.rs:275-283 | no buffered event names a run that the last submission absorbed, unless a later merge of it made the run a survivor again |
| OperatorLineage.BufferShowsLatest | src/operator.rs:103-309 | over any run whatever, a buffered event is the latest version of its event but for durability, in the run that its own has become |
| OperatorLineage.HistoryIsLatest | src/operator.rs:253-309 | the unbounded history holds, but for marks, exactly the latest versions |
| OperatorLineage.LatestIsUnique | src/operator.rs:253-309 | there is one latest version of every event |
| OperatorTimes.OperationSetsTimes | src/operator.rs:311-345 | what each operation makes of every run's terminal time: the earlier of both moves to a survivor, a run that is over keeps its first time, a reopened one loses it |
| OperatorTimes.MergedTimesAreEarliest | src/operator.rs:329-345 | after any number of merges a run has the earliest time of all the runs that have become it |
| OperatorTimes.SubmissionChanges | src/operator.rs:253-309 | a submission reports a change exactly when it records an event, moves one, or changes a terminal time on the way |
| OperatorPublication.BlockedByLast | src/operator.rs:194-200 | after a publication a run is blocked exactly when its last finalization is not ready, or it has none and was blocked before |
| OperatorPublication.BlockedOverRuns | src/operator.rs:194-200 | the same over whole runs with any number of publications |
| OperatorPublication.PublicationShows | src/operator.rs:186-236 | a publication shows the top of the private items that no remaining drain and no blocked run hides, and of the hidden ones as published before, with the finish times of the given runs |
| OperatorPublication.FinalizedRunsAreShown | src/operator.rs:194-229 | an event in no remaining drain, whose run was last finalized as ready, competes with its private version |
| OperatorPublication.DrainHoldsBack | src/operator.rs:136-150 | after a historical submission a drain holds back what it did and what was touched, as far as a changed buffer still holds it |
| OperatorPublication.SubmissionOpens | src/operator.rs:103-151 | exactly the touched events are open for the kind of submission, and the other kind's are left alone |
| OperatorPublication.CompletionMarks | src/operator.rs:347-372 | a completed write marks exactly the open events, by what its outcome says |
| OperatorProofs.AccumulatedIsTop | src/operator.rs:216-229 | the published activity is the top of visible private items and hidden published ones |
| OperatorProofs.UnfinishedStaysAsPublished | src/operator.rs:200-229 | an event of an unfinished drain, or whose private copy belongs to a blocked run, is shown exactly as published before |
| Performance.PerformanceState.Admit | src/performance.rs:178-193 | the next sequence number becomes pending at its time, and is queued when rated |
| Performance.PerformanceState.Complete | src/performance.rs:195-199 | completes a pending sequence and ignores any other |
| Performance.PerformanceState.DiscardExpiredAdmissionTimes | src/performance.rs:201-212 | drops the front of the queue up to the sixty-second boundary |
| Performance.PerformanceState.CountWindow | src/performance.rs:214-227 | counts the queued times in the half-open window |
| Performance.PerformanceState.EventLag | src/performance.rs:229-235 | the age of the oldest pending sequence, zero when none is pending |
| Performance.PerformanceState.UpdateLagGeneration | src/performance.rs:237-251 | the latch falls when its generation has drained and rises on more than a second of lag |
| Performance.Admission.Complete | src/performance.rs:270-296 | explicit completion and the drop that follows complete the sequence once |
| Performance.PerformanceSampler.Sample | src/performance.rs:350-412 | the snapshot is read at one clock value, and each reason is given exactly beyond its threshold |
| PerformanceProofs.PendingExactly | src/performance.rs:178-199 | a sequence is pending exactly when its admission is followed by no completion |
| PerformanceProofs.PendingOrCompletedOnce | src/performance.rs:178-199 | every sequence up to the admission high water is pending, or was completed exactly once |
| PerformanceProofs.CompletionHighWaterIsGreatest | src/performance.rs:195-199 | the completion high water is the greatest completed sequence |
| PerformanceProofs.LagIsGreatestAge | src/performance.rs:229-235 | with admissions stamped in order, the lag is the greatest age over all pending events |
| PerformanceProofs.PrunedCountsAreExact | src/performance.rs:201-227 | if the sampling clock never goes back, the pruned queue gives the counts of the full rated history |
| PerformanceProofs.QueueIsRecent | src/performance.rs:201-212 | with admissions stamped in order a sample leaves nothing sixty seconds old in the queue |
| PerformanceProofs.LagReportedExactly | src/performance.rs:237-251 | a sample reports event lag if and only if lag exceeds a second now or an opened generation is outstanding |
| PerformanceProofs.LatchIsBounded | src/performance.rs:237-251 | while latched, the high water recorded is at least the oldest pending sequence and at most the admission high water |
| Components.BuildAdjacency | src/model/graph.rs:44-56 | the adjacency lists hold both directions of exactly the given edges |
| Components.Explore | src/model/graph.rs:64-83 | visits exactly the component of its start, and finds whether any of it has a live neighbour outside |
| Components.SameComponent | src/model/graph.rs:64-83 | members of one component have the same component |
| Components.DanglingAnnouncementComponents | src/model/graph.rs:38-89 | the count is the number of components of relationship-only runs with no known non-terminal neighbour outside |
| Components.CountedExactly | src/model/graph.rs:7-89 | a component is counted exactly when each of its runs is announced only and no run beside it that is queued, running or blocked has a state event or an execution |
| Visibility.DefaultVisibleTaskRunIds | src/activity.rs:140-167 | a run is in the set if and only if execution edges lead from it, through eligible expired runs only, to an eligible unexpired run; terminates on any edge set |
| Visibility.VisibleIsLeast | src/activity.rs:140-167 | every set with the unexpired runs and closed over expired ancestors contains the visible set |
| Visibility.VisibleRunsAreEligible | src/activity.rs:175-235 | a visible run is known and eligible, and an expired one has a visible child |
| Visibility.VisibleExactly | src/activity.rs:175-235 | when a run is visible on its own, by its dismissal, its end within an hour, its last trace if unidentified, and its update within a day if a Controller's without executions |
| Visibility.VisibilityOnlyShrinks | src/activity.rs:140-167 | while the model stays as it is, whatever is visible later is visible now |
| Status.FromModelFiltered | src/status.rs:182-281 | panes show the least execution, runs the newest root agent, and durable evidence is gathered only without a filter |
| Status.FeedOne | src/status.rs:157-175 | one more piece of evidence keeps exactly the newest per run |
| Status.ReadModelIsUnique | src/status.rs:182-281 | the read model does not depend on iteration order, because each selection is unique |
| Status.RunRateActivityOf | src/status.rs:385-425 | the early-exit loop over panes decides whether any pane works |
| Status.FilteredRateAgrees | src/status.rs:296-302 | the projection filtered to one run gives the rate activity of the full projection |
| StatusMeaning.PanesShowCurrent | src/status.rs:182-218 | a pane of a run is shown exactly when an execution is in it, with the state of the least one not ended, if there is such |
| StatusMeaning.RootsShowNewest | src/status.rs:233-275 | a run has root evidence exactly when it has an eligible root agent, and it is that of the one active last |
| StatusMeaning.NativesShowNewest | src/status.rs:220-255 | the same for agents whose exact native session resolves to the run |
| StatusMeaning.WorkingExactly | src/status.rs:385-425 | a running run works exactly when a pane says so, or its silent pane's current execution works, or without executions its newest root agent works, or there is none |
| StatusMeaning.RunRateActivityFromModel | src/status.rs:296-302 | the rate activity computed from the filtered projection is the one the model's rows call for, and that of every full projection |
| Paths.EscapeOs | src/diagnostics/local.rs:534-559 | the loop over valid prefixes and malformed or cut-off bytes produces the escaped text |
| Paths.EscapeValid | src/diagnostics/local.rs:561-575 | appends the escapes of the characters in order |
| Paths.DecodedIsEncoded | src/diagnostics/local.rs:534-559 | a character decoded from bytes encodes to exactly those bytes |
| Paths.EncodedIsDecoded | src/diagnostics/local.rs:534-559 | an encoded scalar value is decoded again whatever follows |
| Paths.EscapingIsReversible | src/diagnostics/local.rs:534-577 | a decoder recovers the exact bytes of any path, valid UTF-8 or not |
| Paths.EscapedIsPrintable | src/diagnostics/local.rs:561-575 | escaped text holds no control character |
| Paths.EscapedAroundSlash | src/diagnostics/local.rs:320-338 | a slash separates escapes even after a cut-off character |
| Paths.HomeIsAbbreviatedExactly | src/diagnostics/local.rs:320-338 | the home prefix is abbreviated exactly when the path bytes equal home or continue it with a slash |
| Paths.RootHomeIsAbbreviatedExactly | src/diagnostics/local.rs:320-338 | with `/` as home exactly the absolute paths are abbreviated |
| PathForms.EscapedStepwise | src/diagnostics/local.rs:534-559 | where a character is encoded its escape is written, and elsewhere exactly one byte is escaped |
| PathForms.CharacterForms | src/diagnostics/local.rs:561-575 | a character is escaped exactly when it is a backslash or a control, in two, four or six characters |
| PathForms.PlainPathIsKept | src/diagnostics/local.rs:534-575 | valid text is shown as it is exactly when it has no backslash and no control |
| Versions.ComponentsCompareAsNumbers | src/diagnostics/remote.rs:687-691 | length then bytes orders canonical decimals of any length as the numbers they denote |
| Versions.CanonicalIsUnique | src/diagnostics/remote.rs:677-685 | different canonical decimals denote different numbers |
| Versions.NumeralsAreCanonical | src/diagnostics/remote.rs:677-685 | every number is denoted by a canonical decimal, and a text is canonical exactly when it is that of its number |
| Versions.ParsesExactlyCores | src/diagnostics/remote.rs:605-648 | exactly three canonical decimals joined by full stops are parsed, to those decimals |
| Versions.AtLeastIsNumeric | src/diagnostics/remote.rs:626-634 | the minimum check is the lexicographic numeric order on major, minor and patch |

## Left out

- Async transport, socket servers, the wire client, SQLite and the writer thread, TUI, CLI, tracing and doctor tables: not part of this model.
- `insert_historical_task_run`: it creates runs whose own key is not addressable, outside the invariant that runs start from.
- `restore_deferred_history` and the field mapping of `project_event`: an event enters the model as the item it projects to, or as none.
- Pane, workspace and tab tables, display ordinals and the ordering of rows inside a before-image: before-images hold sets and maps.
- Controller diagnostics other than the rate saturation counter and the dangling-component count, and the deferred history activity that the domain model carries along.
- Identity.PlanBinding: which of several true dispatch conflicts is reported depends on hash order, so the contract allows each of them.
- Identity.ApplyBindingPlanAt: assumes rows are stored under the identifiers they carry; the alias id for a path promotion is a parameter, and the durable half is the list of operations only.
- Rendezvous.RunKeeps: file modes, owners, path lengths, entries that are not sockets and I/O errors are not modelled; a process may instead end at any step. Reading an existing sentinel and connecting to a socket are one step each, and the exclusive lock per session name is an assumption on the file system.
- OperatorLimits.RecordIsSafeExactly: event identities are natural numbers, so whether another identity fits between two given ones is decided there; the program's identities are strings.
- QuarantineRuns.QuarantineHolds: a run whose edges to a hidden run changed since that run was captured, or of which an earlier before-image is left, is not captured in the runs considered, because its capture would show something else than the snapshot before it.
- Performance.PerformanceState.Admit: the panic on exhausting 64-bit sequence numbers is not modelled, sequence numbers are unbounded.
- Components.DanglingAnnouncementComponents: the count is unbounded where the program saturates at 64 bits, and the debug assertion that such runs are queued is not modelled.
- Versions.AtLeastIsNumeric: pre-release and build parts never reach the comparison, so only the core is modelled.
- `task_display_status`: a match over the read model that adds only case lists.
- Generation of run identifiers: identifiers are given.
