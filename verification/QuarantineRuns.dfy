/** Whole runs of a quarantine: live rows are shown as they are, hidden runs as they were captured. */
module QuarantineRuns {
  import opened Types
  import opened Entities
  import opened Contraction
  import opened Identity
  import opened IdentityProofs
  import opened History
  import opened Quarantine

  // ----- what a merge leaves alone

  ghost predicate SameTablesAt(m: Model, n: Model, r: RunId) {
    && SameAt(m.taskRuns, n.taskRuns, r) && SameAt(m.history, n.history, r) && SameAt(m.rateTotals, n.rateTotals, r)
    && SameAt(m.rateCursors, n.rateCursors, r) && SameAt(m.telemetry, n.telemetry, r)
       && SameAt(m.runKinds, n.runKinds, r)
  }

  lemma InsertLeaves(m: Model, t: TaskRun, r: RunId)
    requires r != t.runId
    ensures SameTablesAt(m, WithTaskRun(m, t), r)
  {
  }

  lemma MarkLeaves(m: Model, survivor: RunId, absorbed: RunId, at: int, r: RunId)
    requires Mergeable(m, survivor, absorbed) && r != survivor
    ensures SameTablesAt(m, WithControllerEvidence(m, survivor, absorbed, at), r)
  {
    InsertLeaves(m, TouchedAt(m.taskRuns[survivor].(hasControllerTaskStateEvent := true), at), r);
  }

  lemma MergedFromLeaves(m: Model, survivor: RunId, absorbed: RunId, graphs: ContractedGraphs, r: RunId)
    requires r != survivor && r != absorbed
    ensures SameTablesAt(m, MergedFrom(m, survivor, absorbed, graphs), r)
  {
  }

  lemma SameTablesChain(m: Model, n: Model, o: Model, r: RunId)
    requires SameTablesAt(m, n, r) && SameTablesAt(n, o, r)
    ensures SameTablesAt(m, o, r)
  {
  }

  /** A merge writes no table entry of any other run. */
  lemma MergeLeaves(m: Model, survivor: RunId, absorbed: RunId, at: int, r: RunId)
    requires Mergeable(m, survivor, absorbed) && r != survivor && r != absorbed
    ensures SameTablesAt(m, MergeApplied(m, survivor, absorbed, at), r)
  {
    var graphs := ImageGraphs(m, survivor, absorbed);
    var marked, merged := WithControllerEvidence(m, survivor, absorbed, at), Merged(m, survivor, absorbed, graphs, at);
    MarkLeaves(m, survivor, absorbed, at, r);
    MergedFromLeaves(marked, survivor, absorbed, graphs, r);
    SameTablesChain(m, marked, merged, r);
    MergedRecords(m, survivor, absorbed, graphs, at);
    InsertLeaves(merged, TouchedAt(merged.taskRuns[survivor], at), r);
    SameTablesChain(m, merged, MergeApplied(m, survivor, absorbed, at), r);
  }

  lemma ImageAway(edges: set<Edge>, survivor: RunId, absorbed: RunId, runs: set<RunId>)
    requires survivor in runs && absorbed in runs
    ensures EdgesAway(Image(edges, survivor, absorbed), runs) == EdgesAway(edges, runs)
  {
    forall e | e in EdgesAway(edges, runs) ensures e in EdgesAway(Image(edges, survivor, absorbed), runs) {
      assert SubstituteEdge(e, survivor, absorbed) == e;
    }
  }

  lemma RowsAway(m: Model, after: Model, survivor: RunId, absorbed: RunId, runs: set<RunId>)
    requires survivor in runs && absorbed in runs && ImageRows(m, survivor, absorbed, after)
    requires after.keyOwner == map k | k in m.keyOwner :: Substitute(m.keyOwner[k], survivor, absorbed)
    ensures KeysAway(m.keyOwner, runs) == KeysAway(after.keyOwner, runs)
    ensures ExecutionsAway(m.executions, runs) == ExecutionsAway(after.executions, runs)
    ensures NodesAway(m.agentNodes, runs) == NodesAway(after.agentNodes, runs)
  {
  }

  /** Outside any set with both runs in it, a merge changes nothing. */
  lemma MergeAgreesOutside(m: Model, survivor: RunId, absorbed: RunId, at: int, runs: set<RunId>)
    requires IdentityInvariant(m) && Mergeable(m, survivor, absorbed) && survivor in runs && absorbed in runs
    ensures AgreeOutside(m, MergeApplied(m, survivor, absorbed, at), runs)
  {
    var after := MergeApplied(m, survivor, absorbed, at);
    MergeMovesKeys(m, survivor, absorbed, at);
    MergeRows(m, survivor, absorbed, at);
    RowsAway(m, after, survivor, absorbed, runs);
    ImageAway(m.executionEdges, survivor, absorbed, runs);
    ImageAway(m.dependencyEdges, survivor, absorbed, runs);
    forall r | r !in runs ensures SameTablesAt(m, after, r) { MergeLeaves(m, survivor, absorbed, at, r); }
  }

  // ----- which runs are blocked after a merge

  lemma InsertKeepsHistory(m: Model, t: TaskRun)
    requires t.runId in m.history
    ensures WithTaskRun(m, t).history == m.history
  {
  }

  lemma MarkKeepsHistory(m: Model, survivor: RunId, absorbed: RunId, at: int)
    requires Mergeable(m, survivor, absorbed) && survivor in m.history
    ensures WithControllerEvidence(m, survivor, absorbed, at).history == m.history
  {
  }

  /** The survivor of two runs with lifecycle state is ready exactly when one of them was. */
  lemma MergedReadiness(m: Model, survivor: RunId, absorbed: RunId, at: int)
    requires Mergeable(m, survivor, absorbed) && survivor in m.history && absorbed in m.history
    ensures MergeApplied(m, survivor, absorbed, at).history
            == Drop(MergedHistory(m.history, survivor, absorbed), absorbed)
  {
    var graphs := ImageGraphs(m, survivor, absorbed);
    var merged := Merged(m, survivor, absorbed, graphs, at);
    MarkKeepsHistory(m, survivor, absorbed, at);
    MergedRecords(m, survivor, absorbed, graphs, at);
    InsertKeepsHistory(merged, TouchedAt(merged.taskRuns[survivor], at));
  }

  function Unfinished(history: map<RunId, RunHistory>): set<RunId> {
    set r | r in history && !history[r].historyReady
  }

  lemma MergedUnfinished(history: map<RunId, RunHistory>, survivor: RunId, absorbed: RunId)
    requires survivor in Unfinished(history) && absorbed in Unfinished(history) && survivor != absorbed
    ensures Unfinished(Drop(MergedHistory(history, survivor, absorbed), absorbed)) == Unfinished(history) - {absorbed}
  {
  }

  lemma UnfinishedBlocks(m: Model)
    ensures BlockedRuns(m) == Unfinished(m.history)
  {
  }

  lemma MergedBlocked(m: Model, survivor: RunId, absorbed: RunId, at: int)
    requires Mergeable(m, survivor, absorbed) && survivor in BlockedRuns(m) && absorbed in BlockedRuns(m)
    ensures BlockedRuns(MergeApplied(m, survivor, absorbed, at)) == BlockedRuns(m) - {absorbed}
  {
    MergedReadiness(m, survivor, absorbed, at);
    MergedUnfinished(m.history, survivor, absorbed);
    UnfinishedBlocks(m);
    UnfinishedBlocks(MergeApplied(m, survivor, absorbed, at));
  }

  lemma UnmentionedTables(m: Model, runs: set<RunId>, r: RunId)
    requires !Mentions(m, r)
    ensures TablesRemoved(m, runs) == TablesRemoved(m, runs + {r})
  {
    assert m.taskRuns - runs == m.taskRuns - (runs + {r});
    assert m.history - runs == m.history - (runs + {r});
    assert m.rateTotals - runs == m.rateTotals - (runs + {r});
    assert m.rateCursors - runs == m.rateCursors - (runs + {r});
    assert m.telemetry - runs == m.telemetry - (runs + {r});
    assert m.runKinds - runs == m.runKinds - (runs + {r});
  }

  lemma UnmentionedRows(m: Model, runs: set<RunId>, r: RunId)
    requires !Mentions(m, r)
    ensures RowsRemoved(m, runs) == RowsRemoved(m, runs + {r})
  {
    assert forall k :: k in m.keyOwner ==> m.keyOwner[k] in m.keyOwner.Values;
    assert KeysAway(m.keyOwner, runs) == KeysAway(m.keyOwner, runs + {r});
    assert ExecutionsAway(m.executions, runs) == ExecutionsAway(m.executions, runs + {r});
    assert NodesAway(m.agentNodes, runs) == NodesAway(m.agentNodes, runs + {r});
    assert EdgesAway(m.executionEdges, runs) == EdgesAway(m.executionEdges, runs + {r});
    assert EdgesAway(m.dependencyEdges, runs) == EdgesAway(m.dependencyEdges, runs + {r});
  }

  lemma SameRowsRemoved(m: Model, runs: set<RunId>, more: set<RunId>)
    requires TablesRemoved(m, runs) == TablesRemoved(m, more) && RowsRemoved(m, runs) == RowsRemoved(m, more)
    ensures Removed(m, runs) == Removed(m, more)
  {
  }

  /** Removing a run that nothing mentions removes nothing. */
  lemma UnmentionedRemoved(m: Model, runs: set<RunId>, r: RunId)
    requires !Mentions(m, r)
    ensures Removed(m, runs) == Removed(m, runs + {r})
  {
    UnmentionedTables(m, runs, r);
    UnmentionedRows(m, runs, r);
    SameRowsRemoved(m, runs, runs + {r});
  }

  lemma RedirectedSelection(m: Model, after: Model, survivor: RunId, absorbed: RunId, blocked: set<RunId>)
    requires survivor in blocked && absorbed in blocked && survivor != absorbed
    requires after.publications == Redirected(m.publications, survivor, absorbed)
    ensures SameImages(Selected(after, blocked - {absorbed}), Selected(m, blocked))
  {
  }

  lemma SameImagesChain(ps: map<RunId, Publication>, qs: map<RunId, Publication>, rs: map<RunId, Publication>)
    requires SameImages(ps, qs) && SameImages(qs, rs)
    ensures SameImages(ps, rs)
  {
  }

  lemma FewerStayBehind(m: Model, hidden: set<RunId>, n: Model, after: Model, absorbed: RunId)
    requires Behind(m, hidden, n) && absorbed in BlockedRuns(n) && BlockedRuns(after) == BlockedRuns(n) - {absorbed}
    requires Projection(Removed(after, BlockedRuns(n))) == Projection(Removed(n, BlockedRuns(n)))
    requires Removed(after, BlockedRuns(after)) == Removed(after, BlockedRuns(after) + {absorbed})
    requires SameImages(Selected(after, BlockedRuns(after)), Selected(n, BlockedRuns(n)))
    ensures Behind(m, hidden, after)
  {
    assert BlockedRuns(after) + {absorbed} == BlockedRuns(n);
    SameImagesChain(Selected(after, BlockedRuns(after)), Selected(n, BlockedRuns(n)), Captures(m, hidden));
  }

  /** A merge of two blocked runs stays behind the captures: the absorbed run's image now stands for the survivor. */
  lemma MergeStaysBehind(m: Model, hidden: set<RunId>, n: Model, survivor: RunId, absorbed: RunId, at: int)
    requires Behind(m, hidden, n) && IdentityInvariant(n) && Mergeable(n, survivor, absorbed)
    requires survivor in BlockedRuns(n) && absorbed in BlockedRuns(n)
    ensures Behind(m, hidden, MergeApplied(n, survivor, absorbed, at))
  {
    var after, blocked := MergeApplied(n, survivor, absorbed, at), BlockedRuns(n);
    MergedBlocked(n, survivor, absorbed, at);
    assert Projection(Removed(after, blocked)) == Projection(Removed(n, blocked)) by {
      MergeAgreesOutside(n, survivor, absorbed, at, blocked);
      AgreeRemoved(n, after, blocked);
    }
    MergeForgets(n, survivor, absorbed, at, absorbed);
    UnmentionedRemoved(after, blocked - {absorbed}, absorbed);
    assert SameImages(Selected(after, blocked - {absorbed}), Selected(n, blocked)) by {
      MergeRows(n, survivor, absorbed, at);
      RedirectedSelection(n, after, survivor, absorbed, blocked);
    }
    FewerStayBehind(m, hidden, n, after, absorbed);
  }

  // ----- putting live runs in quarantine

  /** The model with the history of the given runs marked as incomplete. */
  function Unready(m: Model, runs: set<RunId>): Model {
    m.(history := map r | r in m.history :: if r in runs then m.history[r].(historyReady := false) else m.history[r])
  }

  lemma UnreadyBlocks(n: Model, more: set<RunId>)
    requires forall r :: r in more ==> r in n.history
    ensures BlockedRuns(Unready(n, more)) == BlockedRuns(n) + more
  {
    forall r | r in n.history ensures r in BlockedRuns(Unready(n, more)) <==> r in BlockedRuns(n) + more {
      assert r in Unready(n, more).history;
    }
  }

  lemma UnreadyAgrees(n: Model, more: set<RunId>, runs: set<RunId>)
    requires more <= runs
    ensures AgreeOutside(n, Unready(n, more), runs)
  {
    forall r | r !in runs ensures SameAt(n.history, Unready(n, more).history, r) {}
  }

  /** The runs are marked as incomplete and captured on the spot. */
  function Covered(n: Model, more: set<RunId>): Model {
    Unready(n, more).(publications := n.publications + Captures(n, more))
  }

  lemma ProjectedRemove(x: Model, y: Model, runs: set<RunId>)
    requires Projection(x) == Projection(y)
    ensures Projection(Removed(x, runs)) == Projection(Removed(y, runs))
  {
  }

  /** A live run whose edges are all shown; no before-image was captured from it or stands for it. */
  ghost predicate Coverable(m: Model, n: Model, r: RunId) {
    && Restorable(n, r) && r !in BlockedRuns(n) && r !in n.publications && !StoodFor(n.publications, r)
    && EdgesOf(n.executionEdges, r) == EdgesOf(m.executionEdges, r)
    && EdgesOf(n.dependencyEdges, r) == EdgesOf(m.dependencyEdges, r)
  }

  lemma SameLive<V>(a: map<RunId, V>, hidden: set<RunId>, b: map<RunId, V>, blocked: set<RunId>, r: RunId)
    requires b - blocked == a - hidden && r !in hidden && r !in blocked
    ensures SameAt(a, b, r)
  {
    assert r in a <==> r in a - hidden;
    assert r in b <==> r in b - blocked;
  }

  /** Where two models agree outside some runs, they agree on the tables of every other run. */
  lemma SameLiveTables(m: Model, hidden: set<RunId>, n: Model, blocked: set<RunId>, r: RunId)
    requires TablesRemoved(n, blocked).taskRuns == TablesRemoved(m, hidden).taskRuns
    requires n.history - blocked == m.history - hidden && n.rateTotals - blocked == m.rateTotals - hidden
    requires n.rateCursors - blocked == m.rateCursors - hidden && n.telemetry - blocked == m.telemetry - hidden
    requires n.runKinds - blocked == m.runKinds - hidden
    requires r !in hidden && r !in blocked
    ensures SameTablesAt(m, n, r)
  {
    SameLive(m.taskRuns, hidden, n.taskRuns, blocked, r);
    SameLive(m.history, hidden, n.history, blocked, r);
    SameLive(m.rateTotals, hidden, n.rateTotals, blocked, r);
    SameLive(m.rateCursors, hidden, n.rateCursors, blocked, r);
    SameLive(m.telemetry, hidden, n.telemetry, blocked, r);
    SameLive(m.runKinds, hidden, n.runKinds, blocked, r);
  }

  lemma SameLiveKeys(a: map<RunKey, RunId>, hidden: set<RunId>, b: map<RunKey, RunId>, blocked: set<RunId>, r: RunId)
    requires KeysAway(b, blocked) == KeysAway(a, hidden) && r !in hidden && r !in blocked
    ensures KeysOf(a, r) == KeysOf(b, r)
    ensures forall k :: (k in a && a[k] == r) <==> (k in b && b[k] == r)
  {
    forall k ensures (k in a && a[k] == r) <==> (k in b && b[k] == r) {
      assert k in a && a[k] == r <==> k in KeysAway(a, hidden) && KeysAway(a, hidden)[k] == r;
      assert k in b && b[k] == r <==> k in KeysAway(b, blocked) && KeysAway(b, blocked)[k] == r;
    }
  }

  lemma SameLiveRows(m: Model, hidden: set<RunId>, n: Model, blocked: set<RunId>, r: RunId)
    requires ExecutionsAway(n.executions, blocked) == ExecutionsAway(m.executions, hidden)
    requires NodesAway(n.agentNodes, blocked) == NodesAway(m.agentNodes, hidden)
    requires r !in hidden && r !in blocked
    ensures ExecutionsOf(n.executions, r) == ExecutionsOf(m.executions, r)
    ensures NodesOf(n.agentNodes, r) == NodesOf(m.agentNodes, r)
  {
    assert ExecutionsOf(ExecutionsAway(n.executions, blocked), r) == ExecutionsOf(n.executions, r);
    assert ExecutionsOf(ExecutionsAway(m.executions, hidden), r) == ExecutionsOf(m.executions, r);
    assert NodesOf(NodesAway(n.agentNodes, blocked), r) == NodesOf(n.agentNodes, r);
    assert NodesOf(NodesAway(m.agentNodes, hidden), r) == NodesOf(m.agentNodes, r);
  }

  lemma CapturedExactly(m: Model, n: Model, r: RunId)
    requires SameTablesAt(m, n, r) && KeysOf(m.keyOwner, r) == KeysOf(n.keyOwner, r)
    requires ExecutionsOf(n.executions, r) == ExecutionsOf(m.executions, r)
             && NodesOf(n.agentNodes, r) == NodesOf(m.agentNodes, r)
    requires EdgesOf(n.executionEdges, r) == EdgesOf(m.executionEdges, r)
             && EdgesOf(n.dependencyEdges, r) == EdgesOf(m.dependencyEdges, r)
    ensures Captured(n, r) == Captured(m, r)
  {
  }

  /** Behind the captures a live run is captured as it is shown. */
  lemma CoverableIsShown(m: Model, hidden: set<RunId>, n: Model, r: RunId)
    requires Behind(m, hidden, n) && Coverable(m, n, r) && r !in hidden
    ensures Captured(n, r) == Captured(m, r) && Restorable(m, r)
  {
    var blocked := BlockedRuns(n);
    SameLiveTables(m, hidden, n, blocked, r);
    SameLiveKeys(m.keyOwner, hidden, n.keyOwner, blocked, r);
    SameLiveRows(m, hidden, n, blocked, r);
    CapturedExactly(m, n, r);
  }

  lemma CapturedAlike(m: Model, n: Model, runs: set<RunId>)
    requires forall r :: r in runs ==> Captured(m, r) == Captured(n, r)
    ensures Captures(m, runs) == Captures(n, runs)
  {
    forall r | r in runs ensures r in m.taskRuns <==> r in n.taskRuns { assert Captured(m, r) == Captured(n, r); }
  }

  function Standing(ps: map<RunId, Publication>, runs: set<RunId>): map<RunId, Publication> {
    map r | r in ps && ps[r].canonicalRunId in runs :: ps[r]
  }

  lemma SelectedStands(m: Model, runs: set<RunId>)
    ensures Selected(m, runs) == Standing(m.publications, runs)
  {
  }

  /** Images that stand for their own runs join those already selected. */
  lemma StandingTogether(ps: map<RunId, Publication>, qs: map<RunId, Publication>, blocked: set<RunId>)
    requires forall r :: r in qs ==> r !in ps && !StoodFor(ps, r) && qs[r].canonicalRunId == r
    ensures Standing(ps + qs, blocked + qs.Keys) == Standing(ps, blocked) + qs
  {
  }

  lemma CoveredSelection(n: Model, blocked: set<RunId>, more: set<RunId>)
    requires forall r :: r in more ==> r in n.taskRuns && r !in n.publications && !StoodFor(n.publications, r)
    ensures Selected(Covered(n, more), blocked + more) == Selected(n, blocked) + Captures(n, more)
  {
    assert Captures(n, more).Keys == more;
    StandingTogether(n.publications, Captures(n, more), blocked);
    SelectedStands(n, blocked);
    SelectedStands(Covered(n, more), blocked + more);
  }

  lemma CapturesTogether(m: Model, hidden: set<RunId>, more: set<RunId>)
    ensures Captures(m, hidden + more) == Captures(m, hidden) + Captures(m, more)
  {
  }

  lemma CoveredProjection(m: Model, hidden: set<RunId>, n: Model, more: set<RunId>)
    requires Behind(m, hidden, n)
    ensures Projection(Removed(Covered(n, more), BlockedRuns(n) + more)) == Projection(Removed(m, hidden + more))
  {
    var blocked := BlockedRuns(n);
    UnreadyAgrees(n, more, blocked + more);
    AgreeRemoved(n, Unready(n, more), blocked + more);
    RemovedTwice(n, blocked, more);
    RemovedTwice(m, hidden, more);
    ProjectedRemove(Removed(n, blocked), Removed(m, hidden), more);
    ProjectedRemove(Covered(n, more), Unready(n, more), blocked + more);
  }

  lemma MoreImages(ps: map<RunId, Publication>, qs: map<RunId, Publication>, more: map<RunId, Publication>)
    requires SameImages(ps, qs)
    ensures SameImages(ps + more, qs + more)
  {
  }

  lemma CoverableAreShown(m: Model, hidden: set<RunId>, n: Model, more: set<RunId>)
    requires Behind(m, hidden, n) && (forall r :: r in more ==> Coverable(m, n, r))
    requires forall r :: r in hidden ==> r in m.taskRuns
    ensures forall r :: r in more ==> Captured(m, r) == Captured(n, r) && Restorable(m, r)
  {
    assert Captures(m, hidden).Keys == hidden;
    forall r | r in more ensures Captured(m, r) == Captured(n, r) && Restorable(m, r) {
      assert Coverable(m, n, r) && r !in Selected(n, BlockedRuns(n));
      CoverableIsShown(m, hidden, n, r);
    }
  }

  lemma CoveredBlocked(n: Model, more: set<RunId>)
    requires forall r :: r in more ==> r in n.history
    ensures BlockedRuns(Covered(n, more)) == BlockedRuns(n) + more
  {
    UnreadyBlocks(n, more);
  }

  /** More runs may go behind their captures at any time. */
  lemma CoverStaysBehind(m: Model, hidden: set<RunId>, n: Model, more: set<RunId>)
    requires Behind(m, hidden, n) && (forall r :: r in more ==> Coverable(m, n, r))
    requires forall r :: r in hidden ==> r in m.taskRuns
    ensures Behind(m, hidden + more, Covered(n, more)) && (forall r :: r in more ==> Restorable(m, r))
  {
    CoverableAreShown(m, hidden, n, more);
    CoveredBlocked(n, more);
    CoveredProjection(m, hidden, n, more);
    CoveredSelection(n, BlockedRuns(n), more);
    CapturesTogether(m, hidden, more);
    CapturedAlike(m, n, more);
    MoreImages(Selected(n, BlockedRuns(n)), Captures(m, hidden), Captures(m, more));
  }

  // ----- live rows, and runs that leave the quarantine

  /** Apart from the rows of its blocked runs, `n` is what `m` is apart from the hidden runs, which can be restored. */
  ghost predicate Shows(m: Model, hidden: set<RunId>, n: Model) {
    && m.WellKeyed() && (forall r :: r in hidden ==> Restorable(m, r))
    && Projection(Removed(n, BlockedRuns(n))) == Projection(Removed(m, hidden))
  }

  ghost predicate CapturesKept(m: Model, next: Model, hidden: set<RunId>) {
    forall r :: r in hidden ==> Captured(next, r) == Captured(m, r)
  }

  lemma EditStaysBehind(m: Model, hidden: set<RunId>, n: Model, shown: Model, next: Model)
    requires Behind(m, hidden, n) && Shows(shown, hidden, next) && CapturesKept(m, shown, hidden)
    requires BlockedRuns(next) == BlockedRuns(n) && next.publications == n.publications
    ensures Behind(shown, hidden, next)
  {
    CapturedAlike(m, shown, hidden);
  }

  /** The drain of a run ends: its lifecycle state is complete and its before-images are released. */
  function Finished(n: Model, run: RunId, state: RunHistory): Model {
    n.(history := n.history[run := state], publications := Unreleased(n.publications, run))
  }

  /** The hidden runs whose images do not stand for any of the given runs. */
  function StillHidden(n: Model, hidden: set<RunId>, gone: set<RunId>): set<RunId> {
    set r | r in hidden && r in n.publications && n.publications[r].canonicalRunId !in gone
  }

  lemma FinishedBlocked(n: Model, run: RunId, state: RunHistory)
    requires state.historyReady
    ensures BlockedRuns(Finished(n, run, state)) == BlockedRuns(n) - {run}
  {
  }

  lemma FewerCaptures(m: Model, hidden: set<RunId>, still: set<RunId>)
    requires still <= hidden
    ensures Captures(m, still) == map r | r in Captures(m, hidden) && r in still :: Captures(m, hidden)[r]
  {
  }

  lemma FewerImages(ps: map<RunId, Publication>, qs: map<RunId, Publication>, still: set<RunId>)
    requires SameImages(ps, qs)
    ensures SameImages(map r | r in ps && r in still :: ps[r], map r | r in qs && r in still :: qs[r])
  {
  }

  lemma StandingLeft(ps: map<RunId, Publication>, blocked: set<RunId>, gone: set<RunId>, still: set<RunId>)
    requires forall r :: r in Standing(ps, blocked) ==> (r in still <==> ps[r].canonicalRunId !in gone)
    ensures Standing(ps, blocked - gone) == map r | r in Standing(ps, blocked) && r in still :: Standing(ps, blocked)[r]
  {
  }

  /** What is left of the images is what was captured from the runs still hidden. */
  lemma ImagesLeft(m: Model, hidden: set<RunId>, ps: map<RunId, Publication>, blocked: set<RunId>, gone: set<RunId>,
                   still: set<RunId>)
    requires SameImages(Standing(ps, blocked), Captures(m, hidden)) && (forall r :: r in hidden ==> r in m.taskRuns)
    requires still == set r | r in hidden && r in ps && ps[r].canonicalRunId !in gone
    ensures SameImages(Standing(ps, blocked - gone), Captures(m, still))
  {
    assert Captures(m, hidden).Keys == hidden;
    StandingLeft(ps, blocked, gone, still);
    FewerCaptures(m, hidden, still);
    FewerImages(Standing(ps, blocked), Captures(m, hidden), still);
  }

  lemma UnreleasedStands(ps: map<RunId, Publication>, run: RunId, blocked: set<RunId>)
    ensures Standing(Unreleased(ps, run), blocked - {run}) == Standing(ps, blocked - {run})
  {
  }

  /** The given runs are no longer blocked, and the images that stand for the other blocked runs are as they were. */
  ghost predicate Leaves(n: Model, after: Model, gone: set<RunId>) {
    && BlockedRuns(after) == BlockedRuns(n) - gone
    && Standing(after.publications, BlockedRuns(n) - gone) == Standing(n.publications, BlockedRuns(n) - gone)
  }

  /** When its drain ends, a run leaves the quarantine. */
  lemma FinishLeaves(n: Model, run: RunId, state: RunHistory)
    requires state.historyReady
    ensures Leaves(n, Finished(n, run, state), {run})
  {
    FinishedBlocked(n, run, state);
    UnreleasedStands(n.publications, run, BlockedRuns(n));
  }

  lemma MarkedHistory(m: Model, survivor: RunId, absorbed: RunId, at: int)
    requires Mergeable(m, survivor, absorbed)
    ensures WithControllerEvidence(m, survivor, absorbed, at).history == m.history
            || (survivor !in m.history && WithControllerEvidence(m, survivor, absorbed, at).history
                == m.history[survivor := DEFAULT_HISTORY])
  {
  }

  lemma FoldedIsReady(history: map<RunId, RunHistory>, survivor: RunId, absorbed: RunId)
    requires survivor != absorbed && !(survivor in Unfinished(history) && absorbed in Unfinished(history))
    ensures survivor in Drop(MergedHistory(history, survivor, absorbed), absorbed)
            && Drop(MergedHistory(history, survivor, absorbed), absorbed)[survivor].historyReady
  {
  }

  lemma JoinedReady(m: Model, survivor: RunId, absorbed: RunId, at: int)
    requires Mergeable(m, survivor, absorbed) && !(survivor in BlockedRuns(m) && absorbed in BlockedRuns(m))
    ensures var after := MergeApplied(m, survivor, absorbed, at);
            survivor in after.history && after.history[survivor].historyReady
  {
    var graphs := ImageGraphs(m, survivor, absorbed);
    var marked, merged := WithControllerEvidence(m, survivor, absorbed, at), Merged(m, survivor, absorbed, graphs, at);
    MarkedHistory(m, survivor, absorbed, at);
    FoldedIsReady(marked.history, survivor, absorbed);
    MergedRecords(m, survivor, absorbed, graphs, at);
    InsertKeepsHistory(merged, TouchedAt(merged.taskRuns[survivor], at));
  }

  lemma JoinedUnfinished(history: map<RunId, RunHistory>, after: map<RunId, RunHistory>, survivor: RunId,
                         absorbed: RunId)
    requires survivor in after && after[survivor].historyReady && absorbed !in after
    requires forall r :: r != survivor && r != absorbed ==> SameAt(history, after, r)
    ensures Unfinished(after) == Unfinished(history) - {survivor, absorbed}
  {
    forall r ensures r in Unfinished(after) <==> r in Unfinished(history) - {survivor, absorbed} {
      if r != survivor && r != absorbed { assert SameAt(history, after, r); }
    }
  }

  /** After a merge of runs not both blocked neither of them is. */
  lemma JoinedBlocked(m: Model, survivor: RunId, absorbed: RunId, at: int)
    requires IdentityInvariant(m) && Mergeable(m, survivor, absorbed)
    requires !(survivor in BlockedRuns(m) && absorbed in BlockedRuns(m))
    ensures BlockedRuns(MergeApplied(m, survivor, absorbed, at)) == BlockedRuns(m) - {survivor, absorbed}
  {
    var after := MergeApplied(m, survivor, absorbed, at);
    JoinedReady(m, survivor, absorbed, at);
    MergeForgets(m, survivor, absorbed, at, absorbed);
    forall r | r != survivor && r != absorbed ensures SameAt(m.history, after.history, r) {
      MergeLeaves(m, survivor, absorbed, at, r);
    }
    JoinedUnfinished(m.history, after.history, survivor, absorbed);
    UnfinishedBlocks(m);
    UnfinishedBlocks(after);
  }

  lemma RedirectedStands(ps: map<RunId, Publication>, survivor: RunId, absorbed: RunId, blocked: set<RunId>)
    requires survivor != absorbed
    ensures Standing(Redirected(ps, survivor, absorbed), blocked - {survivor, absorbed})
            == Standing(ps, blocked - {survivor, absorbed})
  {
  }

  /** When two runs not both blocked merge, both leave the quarantine, and the other images stay. */
  lemma JoinLeaves(n: Model, survivor: RunId, absorbed: RunId, at: int)
    requires IdentityInvariant(n) && Mergeable(n, survivor, absorbed)
    requires !(survivor in BlockedRuns(n) && absorbed in BlockedRuns(n))
    ensures Leaves(n, MergeApplied(n, survivor, absorbed, at), {survivor, absorbed})
  {
    JoinedBlocked(n, survivor, absorbed, at);
    MergeRows(n, survivor, absorbed, at);
    RedirectedStands(n.publications, survivor, absorbed, BlockedRuns(n));
  }

  /** Runs leave the quarantine, and the images of the others stay. */
  lemma LeftStayBehind(m: Model, hidden: set<RunId>, n: Model, shown: Model, after: Model, gone: set<RunId>)
    requires Behind(m, hidden, n) && (forall r :: r in hidden ==> r in m.taskRuns)
    requires Leaves(n, after, gone)
    requires Shows(shown, StillHidden(n, hidden, gone), after) && CapturesKept(m, shown, StillHidden(n, hidden, gone))
    ensures Behind(shown, StillHidden(n, hidden, gone), after)
  {
    SelectedStands(n, BlockedRuns(n));
    SelectedStands(after, BlockedRuns(n) - gone);
    ImagesLeft(m, hidden, n.publications, BlockedRuns(n), gone, StillHidden(n, hidden, gone));
    CapturedAlike(m, shown, StillHidden(n, hidden, gone));
  }

  // ----- runs

  /** What observers see, the runs hidden behind captures in it, and the model kept privately. */
  datatype Sight = Sight(shown: Model, hidden: set<RunId>, actual: Model)

  /**
   * What may happen during a quarantine: rows of blocked runs change, blocked runs merge, live rows change and are
   * shown so, more runs are captured and hidden, the drain of a run ends, and runs not both blocked merge.
   */
  datatype Change =
    | Rewrite(next: Model)
    | Absorb(survivor: RunId, absorbed: RunId, at: int)
    | EditLive(shown: Model, next: Model)
    | Cover(more: set<RunId>)
    | Finish(shown: Model, run: RunId, state: RunHistory)
    | Join(shown: Model, survivor: RunId, absorbed: RunId, at: int)

  /** The edit shows: live rows are those of `next`, and the runs still hidden are captured as before. */
  ghost predicate Edits(s: Sight, shown: Model, hidden: set<RunId>, next: Model) {
    Shows(shown, hidden, next) && CapturesKept(s.shown, shown, hidden)
  }

  ghost predicate Possible(s: Sight, c: Change) {
    var n := s.actual;
    match c
    case Rewrite(next) =>
      && BlockedRuns(next) == BlockedRuns(n) && AgreeOutside(n, next, BlockedRuns(n))
      && next.publications == n.publications && IdentityInvariant(next)
    case Absorb(survivor, absorbed, _) =>
      survivor in BlockedRuns(n) && absorbed in BlockedRuns(n) && MergeAccepted(n, survivor, absorbed)
    case EditLive(shown, next) =>
      && BlockedRuns(next) == BlockedRuns(n) && next.publications == n.publications && IdentityInvariant(next)
      && Edits(s, shown, s.hidden, next)
    case Cover(more) => forall r :: r in more ==> Coverable(s.shown, n, r)
    case Finish(shown, run, state) =>
      state.historyReady && Edits(s, shown, StillHidden(n, s.hidden, {run}), Finished(n, run, state))
    case Join(shown, survivor, absorbed, at) =>
      && MergeAccepted(n, survivor, absorbed) && !(survivor in BlockedRuns(n) && absorbed in BlockedRuns(n))
      && Edits(s, shown, StillHidden(n, s.hidden, {survivor, absorbed}), MergeApplied(n, survivor, absorbed, at))
  }

  ghost function Changed(s: Sight, c: Change): Sight {
    var n := s.actual;
    match c
    case Rewrite(next) => s.(actual := next)
    case Absorb(survivor, absorbed, at) => s.(actual := MergeApplied(n, survivor, absorbed, at))
    case EditLive(shown, next) => s.(shown := shown, actual := next)
    case Cover(more) => s.(hidden := s.hidden + more, actual := Covered(n, more))
    case Finish(shown, run, state) => Sight(shown, StillHidden(n, s.hidden, {run}), Finished(n, run, state))
    case Join(shown, survivor, absorbed, at) =>
      Sight(shown, StillHidden(n, s.hidden, {survivor, absorbed}), MergeApplied(n, survivor, absorbed, at))
  }

  ghost predicate PossibleThroughout(s: Sight, changes: seq<Change>)
    decreases changes
  {
    changes != [] ==> Possible(s, changes[0]) && PossibleThroughout(Changed(s, changes[0]), changes[1..])
  }

  ghost function AfterAll(s: Sight, changes: seq<Change>): Sight
    decreases changes
  {
    if changes == [] then s else AfterAll(Changed(s, changes[0]), changes[1..])
  }

  ghost predicate Sound(s: Sight) {
    && s.shown.WellKeyed() && (forall r :: r in s.hidden ==> Restorable(s.shown, r))
    && Behind(s.shown, s.hidden, s.actual) && IdentityInvariant(s.actual)
  }

  /** The identity invariant looks neither at lifecycle state nor at before-images. */
  lemma BookkeepingKeepsInvariant(m: Model, n: Model)
    requires IdentityInvariant(m) && n == m.(history := n.history, publications := n.publications)
    ensures IdentityInvariant(n)
  {
    forall r | r in m.taskRuns ensures NativeBindings(n, r) == NativeBindings(m, r) {}
  }

  lemma LeavingStaysSound(s: Sight, shown: Model, next: Model, gone: set<RunId>)
    requires Sound(s) && Edits(s, shown, StillHidden(s.actual, s.hidden, gone), next) && IdentityInvariant(next)
    requires Leaves(s.actual, next, gone)
    ensures Sound(Sight(shown, StillHidden(s.actual, s.hidden, gone), next))
  {
    LeftStayBehind(s.shown, s.hidden, s.actual, shown, next, gone);
  }

  lemma AcceptedIsMergeable(m: Model, survivor: RunId, absorbed: RunId, at: int)
    requires IdentityInvariant(m) && MergeAccepted(m, survivor, absorbed)
    ensures Mergeable(m, survivor, absorbed) && IdentityInvariant(MergeApplied(m, survivor, absorbed, at))
  {
    MergeKeepsInvariant(m, survivor, absorbed, at);
  }

  lemma ChangeStaysSound(s: Sight, c: Change)
    requires Sound(s) && Possible(s, c)
    ensures Sound(Changed(s, c))
  {
    match c
    case Rewrite(next) => RewriteStaysBehind(s.shown, s.hidden, s.actual, next);
    case Absorb(survivor, absorbed, at) =>
      MergeStaysBehind(s.shown, s.hidden, s.actual, survivor, absorbed, at);
      MergeKeepsInvariant(s.actual, survivor, absorbed, at);
    case Cover(more) =>
      CoverStaysBehind(s.shown, s.hidden, s.actual, more);
      BookkeepingKeepsInvariant(s.actual, Covered(s.actual, more));
    case EditLive(shown, next) => EditStaysBehind(s.shown, s.hidden, s.actual, shown, next);
    case Finish(shown, run, state) =>
      FinishLeaves(s.actual, run, state);
      BookkeepingKeepsInvariant(s.actual, Finished(s.actual, run, state));
      LeavingStaysSound(s, shown, Finished(s.actual, run, state), {run});
    case Join(shown, survivor, absorbed, at) =>
      AcceptedIsMergeable(s.actual, survivor, absorbed, at);
      JoinLeaves(s.actual, survivor, absorbed, at);
      LeavingStaysSound(s, shown, MergeApplied(s.actual, survivor, absorbed, at), {survivor, absorbed});
  }

  lemma RefreshedRecord(m: Model, t: TaskRun)
    requires t.runId in m.taskRuns && m.taskRuns[t.runId].key == t.key && t.runId in m.history
    requires t.key in m.keyOwner && m.keyOwner[t.key] == t.runId
    ensures WithTaskRun(m, t) == m.(taskRuns := m.taskRuns[t.runId := t])
  {
    InsertedOwners(m, t);
  }

  lemma RefreshedElsewhere(m: Model, t: TaskRun, runs: set<RunId>)
    requires t.runId !in runs
    ensures Removed(m.(taskRuns := m.taskRuns[t.runId := t]), runs)
            == Removed(m, runs).(taskRuns := (m.taskRuns - runs)[t.runId := t])
  {
    assert m.taskRuns[t.runId := t] - runs == (m.taskRuns - runs)[t.runId := t];
  }

  lemma RefreshedAlike(m: Model, hidden: set<RunId>, n: Model, blocked: set<RunId>, t: TaskRun)
    requires Projection(Removed(n, blocked)) == Projection(Removed(m, hidden))
    requires t.runId !in hidden && t.runId !in blocked
    ensures Projection(Removed(n.(taskRuns := n.taskRuns[t.runId := t]), blocked))
            == Projection(Removed(m.(taskRuns := m.taskRuns[t.runId := t]), hidden))
  {
    RefreshedElsewhere(m, t, hidden);
    RefreshedElsewhere(n, t, blocked);
    assert n.taskRuns - blocked == m.taskRuns - hidden;
  }

  lemma RefreshedKeepsOthers(m: Model, t: TaskRun, r: RunId)
    requires r != t.runId
    ensures Captured(m.(taskRuns := m.taskRuns[t.runId := t]), r) == Captured(m, r)
    ensures Restorable(m.(taskRuns := m.taskRuns[t.runId := t]), r) == Restorable(m, r)
  {
  }

  lemma LiveRunIsShown(s: Sight, r: RunId)
    requires Sound(s) && r !in s.hidden && Restorable(s.actual, r) && r !in BlockedRuns(s.actual)
    ensures Restorable(s.shown, r) && s.shown.taskRuns[r] == s.actual.taskRuns[r]
  {
    SameLiveTables(s.shown, s.hidden, s.actual, BlockedRuns(s.actual), r);
    SameLiveKeys(s.shown.keyOwner, s.hidden, s.actual.keyOwner, BlockedRuns(s.actual), r);
  }

  lemma RefreshedCaptures(m: Model, hidden: set<RunId>, t: TaskRun, shown: Model)
    requires m.WellKeyed() && t.runId !in hidden && (forall r :: r in hidden ==> Restorable(m, r))
    requires shown == m.(taskRuns := m.taskRuns[t.runId := t])
    ensures shown.WellKeyed() && CapturesKept(m, shown, hidden) && (forall r :: r in hidden ==> Restorable(shown, r))
  {
    forall r | r in hidden ensures Captured(shown, r) == Captured(m, r) && Restorable(shown, r) {
      RefreshedKeepsOthers(m, t, r);
    }
  }

  lemma RefreshedSight(s: Sight, t: TaskRun, shown: Model, next: Model)
    requires Sound(s) && t.runId !in s.hidden && t.runId !in BlockedRuns(s.actual)
    requires shown == s.shown.(taskRuns := s.shown.taskRuns[t.runId := t])
    requires next == s.actual.(taskRuns := s.actual.taskRuns[t.runId := t])
             && BlockedRuns(next) == BlockedRuns(s.actual)
    ensures Edits(s, shown, s.hidden, next)
  {
    RefreshedAlike(s.shown, s.hidden, s.actual, BlockedRuns(s.actual), t);
    RefreshedCaptures(s.shown, s.hidden, t, shown);
  }

  /** For one, an update of a live run is shown at once. */
  lemma LiveUpdateIsPossible(s: Sight, t: TaskRun)
    requires Sound(s) && t.runId !in s.hidden && Restorable(s.actual, t.runId) && t.runId !in BlockedRuns(s.actual)
    requires s.actual.taskRuns[t.runId].key == t.key
    ensures Possible(s, EditLive(WithTaskRun(s.shown, t), WithTaskRun(s.actual, t)))
  {
    var next := WithTaskRun(s.actual, t);
    LiveRunIsShown(s, t.runId);
    RefreshedRecord(s.shown, t);
    RefreshedRecord(s.actual, t);
    assert BlockedRuns(next) == BlockedRuns(s.actual) && next.publications == s.actual.publications;
    RefreshedSight(s, t, WithTaskRun(s.shown, t), next);
    InsertKeepsInvariant(s.actual, t);
  }

  lemma {:induction false} ChangesStaySound(s: Sight, changes: seq<Change>)
    requires Sound(s) && PossibleThroughout(s, changes)
    ensures Sound(AfterAll(s, changes))
    decreases changes
  {
    if changes != [] {
      ChangeStaysSound(s, changes[0]);
      ChangesStaySound(Changed(s, changes[0]), changes[1..]);
    }
  }

  /**
   * From the moment runs are put in quarantine, whatever happens to their rows, to live rows, and to the set of
   * hidden runs, every snapshot shows live rows as they are and hidden runs as they were captured.
   */
  lemma QuarantineHolds(m: Model, hidden: set<RunId>, changes: seq<Change>, after: Model)
    requires IdentityInvariant(m) && BlockedRuns(m) == {} && (forall r :: r in hidden ==> Restorable(m, r))
    requires PossibleThroughout(Sight(m, hidden, Quarantined(m, hidden)), changes)
    requires PublishedAs(AfterAll(Sight(m, hidden, Quarantined(m, hidden)), changes).actual, after)
    ensures Projection(after) == Projection(AfterAll(Sight(m, hidden, Quarantined(m, hidden)), changes).shown)
  {
    var start := Sight(m, hidden, Quarantined(m, hidden));
    var end := AfterAll(start, changes);
    QuarantineIsBehind(m, hidden);
    BookkeepingKeepsInvariant(m, start.actual);
    ChangesStaySound(start, changes);
    QuarantineShowsCaptures(end.shown, end.hidden, end.actual, after);
  }
}
