/** What the published snapshot shows: independent of restore order and of every row of a blocked run. */
module Quarantine {
  import opened Types
  import opened Entities
  import opened History

  // ----- disjoint before-images restore to the same snapshot in every order

  function Claims(p: Publication): set<RunKey> {
    p.aliases + {p.taskRun.key}
  }

  /** The images belong to different runs and claim different keys and rows. */
  ghost predicate Disjoint(p: Publication, q: Publication) {
    && p.taskRun.runId != q.taskRun.runId && Claims(p) !! Claims(q)
    && p.executions.Keys !! q.executions.Keys && p.agentNodes.Keys !! q.agentNodes.Keys
  }

  ghost predicate NonOverlapping(ps: map<RunId, Publication>) {
    forall q, r :: q in ps && r in ps && q != r ==> Disjoint(ps[q], ps[r])
  }

  /** The key the image's record replaces, when it still resolves to the image's run. */
  predicate Releases(m: Model, p: Publication, k: RunKey) {
    var run := p.taskRun.runId;
    run in m.taskRuns && m.taskRuns[run].key == k && k in m.keyOwner && m.keyOwner[k] == run
  }

  lemma RestoredOwner(m: Model, p: Publication, k: RunKey)
    ensures var owners := RestoredOwners(m, p);
            if k in Claims(p) then k in owners && owners[k] == p.taskRun.runId
            else if Releases(m, p, k) then k !in owners
            else (k in owners <==> k in m.keyOwner) && (k in owners ==> owners[k] == m.keyOwner[k])
  {
  }

  lemma OwnersCommute(m: Model, p: Publication, q: Publication)
    requires Disjoint(p, q)
    ensures RestoredOwners(Restored(m, p), q) == RestoredOwners(Restored(m, q), p)
  {
    var mp, mq := Restored(m, p), Restored(m, q);
    var pq, qp := RestoredOwners(mp, q), RestoredOwners(mq, p);
    forall k ensures (k in pq <==> k in qp) && (k in pq ==> pq[k] == qp[k]) {
      RestoredOwner(m, p, k);
      RestoredOwner(m, q, k);
      RestoredOwner(mp, q, k);
      RestoredOwner(mq, p, k);
    }
  }

  lemma PutsCommute<V>(m: map<RunId, V>, q: RunId, r: RunId, x: Option<V>, y: Option<V>)
    requires q != r
    ensures Put(Put(m, q, x), r, y) == Put(Put(m, r, y), q, x)
  {
  }

  lemma UnionsCommute<V>(m: map<RowId, V>, x: map<RowId, V>, y: map<RowId, V>)
    requires x.Keys !! y.Keys
    ensures m + x + y == m + y + x
  {
  }

  lemma TablesCommute(m: Model, p: Publication, q: Publication)
    requires Disjoint(p, q)
    ensures var pq, qp := Restored(Restored(m, p), q), Restored(Restored(m, q), p);
            && pq.taskRuns == qp.taskRuns && pq.history == qp.history && pq.rateTotals == qp.rateTotals
            && pq.rateCursors == qp.rateCursors && pq.telemetry == qp.telemetry && pq.runKinds == qp.runKinds
  {
    var i, j := p.taskRun.runId, q.taskRun.runId;
    PutsCommute(m.taskRuns, i, j, Some(p.taskRun), Some(q.taskRun));
    PutsCommute(m.history, i, j, Some(p.state), Some(q.state));
    PutsCommute(m.rateTotals, i, j, ClampedOption(p.rateTotals), ClampedOption(q.rateTotals));
    PutsCommute(m.rateCursors, i, j, p.rateCursor, q.rateCursor);
    PutsCommute(m.telemetry, i, j, p.telemetry, q.telemetry);
    PutsCommute(m.runKinds, i, j, p.runKind, q.runKind);
  }

  lemma RestoreCommutes(m: Model, p: Publication, q: Publication)
    requires Disjoint(p, q)
    ensures Restored(Restored(m, p), q) == Restored(Restored(m, q), p)
  {
    TablesCommute(m, p, q);
    OwnersCommute(m, p, q);
    UnionsCommute(m.executions, p.executions, q.executions);
    UnionsCommute(m.agentNodes, p.agentNodes, q.agentNodes);
    assert m.executionEdges + p.executionEdges + q.executionEdges
           == m.executionEdges + q.executionEdges + p.executionEdges;
    assert m.dependencyEdges + p.dependencyEdges + q.dependencyEdges
           == m.dependencyEdges + q.dependencyEdges + p.dependencyEdges;
  }

  lemma RestoredInLast(m: Model, ps: map<RunId, Publication>, order: seq<RunId>, r: RunId)
    requires (forall x :: x in order ==> x in ps) && r in ps
    ensures RestoredIn(m, ps, order + [r]) == Restored(RestoredIn(m, ps, order), ps[r])
  {
    assert (order + [r])[..|order|] == order;
  }

  /** An image may be restored last instead of before the images that followed it. */
  lemma {:induction false} RestoreLater(m: Model, ps: map<RunId, Publication>, before: seq<RunId>, r: RunId,
                                        later: seq<RunId>)
    requires NonOverlapping(ps) && r in ps && r !in later
    requires (forall x :: x in before ==> x in ps) && (forall x :: x in later ==> x in ps)
    ensures RestoredIn(m, ps, before + [r] + later) == RestoredIn(m, ps, before + later + [r])
    decreases |later|
  {
    if later == [] {
      assert before + [r] + later == before + later + [r];
    } else {
      var init, x := later[..|later| - 1], later[|later| - 1];
      assert before + [r] + later == (before + [r] + init) + [x];
      assert before + later == (before + init) + [x];
      RestoredInLast(m, ps, before + [r] + init, x);
      RestoreLater(m, ps, before, r, init);
      RestoredInLast(m, ps, before + init, r);
      RestoredInLast(m, ps, before + init, x);
      RestoredInLast(m, ps, before + later, r);
      RestoreCommutes(RestoredIn(m, ps, before + init), ps[r], ps[x]);
    }
  }

  lemma RemoveOne(a: seq<RunId>, b: seq<RunId>, j: nat)
    requires a != [] && j < |b| && b[j] == a[|a| - 1]
    requires Enumerates(a, Members(a)) && Enumerates(b, Members(a))
    ensures Enumerates(a[..|a| - 1], Members(a[..|a| - 1]))
    ensures Enumerates(b[..j] + b[j + 1..], Members(a[..|a| - 1]))
  {
    var init, rest := a[..|a| - 1], b[..j] + b[j + 1..];
    forall x ensures x in rest <==> x in init {
      if x in init {
        var i :| 0 <= i < |init| && init[i] == x;
        assert a[i] == x && x in b;
        var k :| 0 <= k < |b| && b[k] == x;
        assert rest[if k < j then k else k - 1] == x;
      }
      if x in rest {
        var k :| 0 <= k < |rest| && rest[k] == x;
        assert b[if k < j then k else k + 1] == x && x in a;
      }
    }
  }

  /** Disjoint before-images give one model, whatever order hashing chooses. */
  lemma {:induction false} OrderIndependent(m: Model, ps: map<RunId, Publication>, a: seq<RunId>, b: seq<RunId>)
    requires NonOverlapping(ps) && (forall x :: x in a ==> x in ps)
    requires Enumerates(a, Members(a)) && Enumerates(b, Members(a))
    ensures RestoredIn(m, ps, a) == RestoredIn(m, ps, b)
    decreases |a|
  {
    if a == [] {
      assert forall r :: r !in b;
    } else {
      var n, r := |a| - 1, a[|a| - 1];
      assert r in b;
      var j :| 0 <= j < |b| && b[j] == r;
      var before, later := b[..j], b[j + 1..];
      assert b == before + [r] + later;
      RestoreLater(m, ps, before, r, later);
      RestoredInLast(m, ps, before + later, r);
      RemoveOne(a, b, j);
      OrderIndependent(m, ps, a[..n], before + later);
    }
  }

  // ----- the snapshot does not depend on the rows of blocked runs

  /** The task-run projection of a model: everything but the pane table and the bookkeeping of publication. */
  function Projection(m: Model): Model {
    m.(publications := map[], paneStatuses := map[], rateSaturations := 0)
  }

  lemma ProjectedRestore(x: Model, y: Model, p: Publication)
    requires Projection(x) == Projection(y)
    ensures Projection(Restored(x, p)) == Projection(Restored(y, p))
  {
  }

  lemma {:induction false} ProjectedRestores(x: Model, y: Model, ps: map<RunId, Publication>, order: seq<RunId>)
    requires Projection(x) == Projection(y) && forall r :: r in order ==> r in ps
    ensures Projection(RestoredIn(x, ps, order)) == Projection(RestoredIn(y, ps, order))
  {
    if order != [] {
      ProjectedRestores(x, y, ps, order[..|order| - 1]);
      ProjectedRestore(RestoredIn(x, ps, order[..|order| - 1]), RestoredIn(y, ps, order[..|order| - 1]),
                       ps[order[|order| - 1]]);
    }
  }

  ghost predicate SameAt<K, V>(a: map<K, V>, b: map<K, V>, k: K) {
    (k in a <==> k in b) && (k in a ==> a[k] == b[k])
  }

  /** The models differ at most in the rows, keys, edges and table entries of the given runs. */
  ghost predicate AgreeOutside(m: Model, n: Model, runs: set<RunId>) {
    && (forall r :: r !in runs ==>
          && SameAt(m.taskRuns, n.taskRuns, r) && SameAt(m.history, n.history, r)
             && SameAt(m.rateTotals, n.rateTotals, r)
          && SameAt(m.rateCursors, n.rateCursors, r) && SameAt(m.telemetry, n.telemetry, r)
             && SameAt(m.runKinds, n.runKinds, r))
    && KeysAway(m.keyOwner, runs) == KeysAway(n.keyOwner, runs)
    && ExecutionsAway(m.executions, runs) == ExecutionsAway(n.executions, runs)
    && NodesAway(m.agentNodes, runs) == NodesAway(n.agentNodes, runs)
    && EdgesAway(m.executionEdges, runs) == EdgesAway(n.executionEdges, runs)
    && EdgesAway(m.dependencyEdges, runs) == EdgesAway(n.dependencyEdges, runs)
  }

  lemma AgreeRemoved(m: Model, n: Model, runs: set<RunId>)
    requires AgreeOutside(m, n, runs)
    ensures Projection(Removed(m, runs)) == Projection(Removed(n, runs))
  {
    assert m.taskRuns - runs == n.taskRuns - runs;
    assert m.history - runs == n.history - runs;
    assert m.rateTotals - runs == n.rateTotals - runs;
    assert m.rateCursors - runs == n.rateCursors - runs;
    assert m.telemetry - runs == n.telemetry - runs;
    assert m.runKinds - runs == n.runKinds - runs;
  }

  lemma SnapshotsAgree(x: Model, y: Model, ps: map<RunId, Publication>, a: seq<RunId>, b: seq<RunId>)
    requires Projection(x) == Projection(y) && NonOverlapping(ps) && Enumerates(a, ps.Keys) && Enumerates(b, ps.Keys)
    ensures Projection(RestoredIn(x, ps, a)) == Projection(RestoredIn(y, ps, b))
  {
    assert ps.Keys == Members(a);
    OrderIndependent(x, ps, a, b);
    ProjectedRestores(x, y, ps, b);
  }

  lemma PublishedOrder(m: Model, after: Model) returns (order: seq<RunId>)
    requires PublishedAs(m, after) && BlockedRuns(m) != {}
    ensures Enumerates(order, Selected(m, BlockedRuns(m)).Keys)
    ensures Projection(after) == Projection(RestoredIn(Removed(m, BlockedRuns(m)), Selected(m, BlockedRuns(m)), order))
  {
    var blocked := BlockedRuns(m);
    order :| Enumerates(order, Selected(m, blocked).Keys)
             && after == RestoredIn(Removed(m, blocked), Selected(m, blocked), order).(publications := map[]);
  }

  /** Non-interference: rows of blocked runs never show in what is published. */
  lemma BlockedRowsAreHidden(m: Model, n: Model, after: Model, other: Model)
    requires BlockedRuns(m) == BlockedRuns(n) && AgreeOutside(m, n, BlockedRuns(m))
    requires Selected(m, BlockedRuns(m)) == Selected(n, BlockedRuns(m)) && NonOverlapping(Selected(m, BlockedRuns(m)))
    requires PublishedAs(m, after) && PublishedAs(n, other)
    ensures Projection(after) == Projection(other)
  {
    var blocked := BlockedRuns(m);
    AgreeRemoved(m, n, blocked);
    if blocked == {} {
      RemovedNothing(m);
      RemovedNothing(n);
    } else {
      var a := PublishedOrder(m, after);
      var b := PublishedOrder(n, other);
      SnapshotsAgree(Removed(m, blocked), Removed(n, blocked), Selected(m, blocked), a, b);
    }
  }

  // ----- quarantine shows blocked runs exactly as they were captured

  function EdgesShown(edges: set<Edge>, hidden: set<RunId>, done: set<RunId>): set<Edge> {
    set e | e in edges && ((e.src !in hidden && e.dst !in hidden) || e.src in done || e.dst in done)
  }

  function RowsShown(m: Model, hidden: set<RunId>, done: set<RunId>): Model {
    m.(keyOwner := KeysAway(m.keyOwner, hidden - done),
       executions := ExecutionsAway(m.executions, hidden - done),
       agentNodes := NodesAway(m.agentNodes, hidden - done),
       executionEdges := EdgesShown(m.executionEdges, hidden, done),
       dependencyEdges := EdgesShown(m.dependencyEdges, hidden, done))
  }

  /** The model with only `done` of the hidden runs put back: their edges to other hidden runs return with them. */
  function PartlyShown(m: Model, hidden: set<RunId>, done: set<RunId>): Model {
    RowsShown(TablesRemoved(m, hidden - done), hidden, done)
  }

  lemma NothingShown(m: Model, hidden: set<RunId>)
    ensures PartlyShown(m, hidden, {}) == Removed(m, hidden)
  {
    assert hidden - {} == hidden;
    assert EdgesShown(m.executionEdges, hidden, {}) == EdgesAway(m.executionEdges, hidden);
    assert EdgesShown(m.dependencyEdges, hidden, {}) == EdgesAway(m.dependencyEdges, hidden);
  }

  lemma AllShown(m: Model, hidden: set<RunId>)
    ensures PartlyShown(m, hidden, hidden) == m
  {
    assert hidden - hidden == {};
    RemovedNothing(m);
    assert EdgesShown(m.executionEdges, hidden, hidden) == m.executionEdges;
    assert EdgesShown(m.dependencyEdges, hidden, hidden) == m.dependencyEdges;
  }

  /** One hidden run is about to be shown again. */
  ghost predicate ShowsNext(m: Model, hidden: set<RunId>, done: set<RunId>, r: RunId) {
    m.WellKeyed() && r in hidden && r !in done && Restorable(m, r)
  }

  lemma ShownTable<V>(table: map<RunId, V>, hidden: set<RunId>, done: set<RunId>, r: RunId)
    requires r in hidden && r !in done
    ensures Put(table - (hidden - done), r, Lookup(table, r)) == table - (hidden - (done + {r}))
  {
  }

  lemma ShownKeys(m: Model, hidden: set<RunId>, done: set<RunId>, r: RunId)
    requires ShowsNext(m, hidden, done, r)
    ensures RestoredOwners(PartlyShown(m, hidden, done), Captured(m, r).value)
            == KeysAway(m.keyOwner, hidden - (done + {r}))
  {
    var away, t := KeysAway(m.keyOwner, hidden - done), m.taskRuns[r];
    assert OwnersWith(m.taskRuns - (hidden - done), away, t) == away[t.key := r];
    assert OwnersWithAliases(away[t.key := r], KeysOf(m.keyOwner, r), r) == KeysAway(m.keyOwner, hidden - (done + {r}));
  }

  lemma ShownRows(m: Model, hidden: set<RunId>, done: set<RunId>, r: RunId)
    requires r in hidden && r !in done
    ensures ExecutionsAway(m.executions, hidden - done) + ExecutionsOf(m.executions, r)
            == ExecutionsAway(m.executions, hidden - (done + {r}))
    ensures NodesAway(m.agentNodes, hidden - done) + NodesOf(m.agentNodes, r)
            == NodesAway(m.agentNodes, hidden - (done + {r}))
  {
  }

  lemma ShownEdges(edges: set<Edge>, hidden: set<RunId>, done: set<RunId>, r: RunId)
    ensures EdgesShown(edges, hidden, done) + EdgesOf(edges, r) == EdgesShown(edges, hidden, done + {r})
  {
  }

  lemma ShowNext(m: Model, hidden: set<RunId>, done: set<RunId>, r: RunId)
    requires ShowsNext(m, hidden, done, r)
    ensures Restored(PartlyShown(m, hidden, done), Captured(m, r).value) == PartlyShown(m, hidden, done + {r})
  {
    ShownTable(m.taskRuns, hidden, done, r);
    ShownTable(m.history, hidden, done, r);
    ShownTable(m.rateTotals, hidden, done, r);
    ShownTable(m.rateCursors, hidden, done, r);
    ShownTable(m.telemetry, hidden, done, r);
    ShownTable(m.runKinds, hidden, done, r);
    ShownKeys(m, hidden, done, r);
    ShownRows(m, hidden, done, r);
    ShownEdges(m.executionEdges, hidden, done, r);
    ShownEdges(m.dependencyEdges, hidden, done, r);
  }

  /** The captures of some runs, keyed by the run. */
  function Captures(m: Model, runs: set<RunId>): map<RunId, Publication> {
    map r | r in runs && r in m.taskRuns :: Captured(m, r).value
  }

  lemma ShowStep(m: Model, hidden: set<RunId>, done: set<RunId>, r: RunId, shown: Model)
    requires ShowsNext(m, hidden, done, r) && shown == PartlyShown(m, hidden, done)
    ensures Restored(shown, Captured(m, r).value) == PartlyShown(m, hidden, done + {r})
  {
    ShowNext(m, hidden, done, r);
  }

  lemma SplitLast(order: seq<RunId>)
    requires order != [] && Enumerates(order, Members(order))
    ensures var init, r := order[..|order| - 1], order[|order| - 1];
            && Enumerates(init, Members(init)) && r !in Members(init) && Members(order) == Members(init) + {r}
            && r in order && forall x :: x in init ==> x in order
  {
    assert order == order[..|order| - 1] + [order[|order| - 1]];
  }

  lemma {:induction false} ShowAll(m: Model, hidden: set<RunId>, base: Model, captures: map<RunId, Publication>,
                                   order: seq<RunId>)
    requires m.WellKeyed() && base == PartlyShown(m, hidden, {})
    requires forall r :: r in hidden ==> Restorable(m, r) && r in captures && captures[r] == Captured(m, r).value
    requires Enumerates(order, Members(order)) && (forall r :: r in order ==> r in hidden)
    ensures RestoredIn(base, captures, order) == PartlyShown(m, hidden, Members(order))
  {
    if order == [] {
      assert Members(order) == {};
    } else {
      var init, r := order[..|order| - 1], order[|order| - 1];
      SplitLast(order);
      ShowAll(m, hidden, base, captures, init);
      ShowStep(m, hidden, Members(init), r, RestoredIn(base, captures, init));
    }
  }

  lemma ShownAsCaptured(m: Model, hidden: set<RunId>, order: seq<RunId>)
    requires m.WellKeyed() && (forall r :: r in hidden ==> Restorable(m, r))
    requires Enumerates(order, Captures(m, hidden).Keys)
    ensures RestoredIn(Removed(m, hidden), Captures(m, hidden), order) == m
  {
    assert Captures(m, hidden).Keys == hidden;
    assert Members(order) == hidden;
    NothingShown(m, hidden);
    ShowAll(m, hidden, Removed(m, hidden), Captures(m, hidden), order);
    AllShown(m, hidden);
  }

  // ----- runs behind their captures, also after merges among them

  /** The images agree in all but the run they stand for. */
  predicate SameImage(p: Publication, q: Publication) {
    p == q.(canonicalRunId := p.canonicalRunId)
  }

  ghost predicate SameImages(ps: map<RunId, Publication>, qs: map<RunId, Publication>) {
    ps.Keys == qs.Keys && forall r :: r in ps ==> SameImage(ps[r], qs[r])
  }

  lemma RestoredAlikeOnce(m: Model, p: Publication, q: Publication)
    requires SameImage(p, q)
    ensures Restored(m, p) == Restored(m, q)
  {
  }

  /** Restoring an image never looks at the run it stands for. */
  lemma {:induction false} RestoredAlike(m: Model, ps: map<RunId, Publication>, qs: map<RunId, Publication>,
                                         order: seq<RunId>)
    requires SameImages(ps, qs) && forall r :: r in order ==> r in ps
    ensures RestoredIn(m, ps, order) == RestoredIn(m, qs, order)
  {
    if order != [] {
      var init, r := order[..|order| - 1], order[|order| - 1];
      RestoredAlike(m, ps, qs, init);
      RestoredAlikeOnce(RestoredIn(m, ps, init), ps[r], qs[r]);
    }
  }

  /**
   * `n` hides, behind the captures taken from `m`, whatever has become of the runs in `hidden`: some may have
   * merged, so that fewer runs are blocked and their images stand for survivors.
   */
  ghost predicate Behind(m: Model, hidden: set<RunId>, n: Model) {
    && Projection(Removed(n, BlockedRuns(n))) == Projection(Removed(m, hidden))
    && SameImages(Selected(n, BlockedRuns(n)), Captures(m, hidden))
  }

  /** Quarantine: as long as a model hides the runs behind their captures, publishing it shows exactly `m`. */
  lemma QuarantineShowsCaptures(m: Model, hidden: set<RunId>, n: Model, after: Model)
    requires m.WellKeyed() && (forall r :: r in hidden ==> Restorable(m, r))
    requires Behind(m, hidden, n) && PublishedAs(n, after)
    ensures Projection(after) == Projection(m)
  {
    var captures, blocked := Captures(m, hidden), BlockedRuns(n);
    assert captures.Keys == hidden;
    if blocked == {} {
      assert Selected(n, blocked).Keys == {};
      RemovedNothing(n);
      RemovedNothing(m);
    } else {
      var order := PublishedOrder(n, after);
      RestoredAlike(Removed(n, blocked), Selected(n, blocked), captures, order);
      ProjectedRestores(Removed(n, blocked), Removed(m, hidden), captures, order);
      ShownAsCaptured(m, hidden, order);
    }
  }

  /** Rows of blocked runs may change in any way behind the captures. */
  lemma RewriteStaysBehind(m: Model, hidden: set<RunId>, n: Model, next: Model)
    requires Behind(m, hidden, n)
    requires BlockedRuns(next) == BlockedRuns(n) && AgreeOutside(n, next, BlockedRuns(n))
             && next.publications == n.publications
    ensures Behind(m, hidden, next)
  {
    AgreeRemoved(n, next, BlockedRuns(n));
  }

  /** Captures taken from one model never overlap, so every restore order publishes the same snapshot. */
  lemma CapturesAreDisjoint(m: Model, hidden: set<RunId>)
    requires m.WellKeyed() && forall r :: r in hidden ==> Restorable(m, r)
    ensures NonOverlapping(Captures(m, hidden))
  {
    forall q, r | q in hidden && r in hidden && q != r ensures Disjoint(Captured(m, q).value, Captured(m, r).value) {
      assert Claims(Captured(m, q).value) == KeysOf(m.keyOwner, q);
      assert Claims(Captured(m, r).value) == KeysOf(m.keyOwner, r);
    }
  }

  /** The runs put in quarantine: their captures are kept and their history is marked as incomplete. */
  function Quarantined(m: Model, hidden: set<RunId>): Model {
    m.(history := map r | r in m.history :: if r in hidden then m.history[r].(historyReady := false) else m.history[r],
       publications := Captures(m, hidden))
  }

  lemma QuarantineBlocks(m: Model, hidden: set<RunId>)
    requires m.WellKeyed() && BlockedRuns(m) == {} && forall r :: r in hidden ==> Restorable(m, r)
    ensures BlockedRuns(Quarantined(m, hidden)) == hidden
    ensures Selected(Quarantined(m, hidden), hidden) == Captures(m, hidden)
  {
    forall r | r in m.history ensures m.history[r].historyReady {
      assert r !in BlockedRuns(m);
    }
  }

  lemma QuarantineAgrees(m: Model, hidden: set<RunId>)
    ensures AgreeOutside(m, Quarantined(m, hidden), hidden)
  {
    var n := Quarantined(m, hidden);
    forall r | r !in hidden ensures SameAt(m.history, n.history, r) {}
  }

  /** Putting runs in quarantine hides them behind their captures. */
  lemma QuarantineIsBehind(m: Model, hidden: set<RunId>)
    requires m.WellKeyed() && BlockedRuns(m) == {} && forall r :: r in hidden ==> Restorable(m, r)
    ensures Behind(m, hidden, Quarantined(m, hidden))
  {
    QuarantineBlocks(m, hidden);
    QuarantineAgrees(m, hidden);
    AgreeRemoved(m, Quarantined(m, hidden), hidden);
  }

  /** Putting runs in quarantine changes nothing that is published. */
  lemma QuarantineIsInvisible(m: Model, hidden: set<RunId>, after: Model)
    requires m.WellKeyed() && BlockedRuns(m) == {} && forall r :: r in hidden ==> Restorable(m, r)
    requires PublishedAs(Quarantined(m, hidden), after)
    ensures Projection(after) == Projection(m)
  {
    QuarantineIsBehind(m, hidden);
    QuarantineShowsCaptures(m, hidden, Quarantined(m, hidden), after);
  }
}
