/** Directed graphs over task runs, and the queue-driven cycle test of the identity kernel. */
module Digraph {
  import opened Types

  // ----- walks and cycles

  ghost predicate IsWalk(edges: set<Edge>, w: seq<RunId>) {
    forall i :: 0 <= i < |w| - 1 ==> Edge(w[i], w[i + 1]) in edges
  }

  /** `w` is a walk of at least one edge from `a` to `b`. */
  ghost predicate WalkFromTo(edges: set<Edge>, w: seq<RunId>, a: RunId, b: RunId) {
    |w| >= 2 && w[0] == a && w[|w| - 1] == b && IsWalk(edges, w)
  }

  ghost predicate Reaches(edges: set<Edge>, a: RunId, b: RunId) {
    exists w :: WalkFromTo(edges, w, a, b)
  }

  ghost predicate Cyclic(edges: set<Edge>) {
    exists v :: Reaches(edges, v, v)
  }

  function EdgeSet(list: seq<Edge>): set<Edge> {
    set e | e in list
  }

  function Vertices(list: seq<Edge>): set<RunId> {
    if list == [] then {}
    else Vertices(list[..|list| - 1]) + {list[|list| - 1].src, list[|list| - 1].dst}
  }

  lemma {:induction false} EndpointsAreVertices(list: seq<Edge>)
    ensures forall e :: e in list ==> e.src in Vertices(list) && e.dst in Vertices(list)
  {
    if list != [] {
      EndpointsAreVertices(list[..|list| - 1]);
      assert list == list[..|list| - 1] + [list[|list| - 1]];
    }
  }

  lemma WalkIsReach(edges: set<Edge>, w: seq<RunId>)
    requires |w| >= 2 && IsWalk(edges, w)
    ensures Reaches(edges, w[0], w[|w| - 1])
  {
    assert WalkFromTo(edges, w, w[0], w[|w| - 1]);
  }

  lemma SubWalk(edges: set<Edge>, w: seq<RunId>, lo: nat, hi: nat)
    requires IsWalk(edges, w) && lo <= hi <= |w|
    ensures IsWalk(edges, w[lo..hi])
  {
    var sub := w[lo..hi];
    forall i | 0 <= i < |sub| - 1 ensures Edge(sub[i], sub[i + 1]) in edges {
      assert Edge(w[lo + i], w[lo + i + 1]) in edges;
    }
  }

  /** A numbering that grows along every edge certifies that no cycle exists. */
  ghost predicate Ranks(edges: set<Edge>, rank: map<RunId, nat>) {
    forall e :: e in edges ==> e.src in rank && e.dst in rank && rank[e.src] < rank[e.dst]
  }

  lemma {:induction false} RankGrows(edges: set<Edge>, rank: map<RunId, nat>, w: seq<RunId>, k: nat)
    requires Ranks(edges, rank) && IsWalk(edges, w) && 1 <= k < |w|
    ensures w[0] in rank && w[k] in rank && rank[w[0]] < rank[w[k]]
  {
    if k > 1 {
      RankGrows(edges, rank, w, k - 1);
    }
    assert Edge(w[k - 1], w[k - 1 + 1]) in edges;
  }

  lemma RankedIsAcyclic(edges: set<Edge>, rank: map<RunId, nat>)
    requires Ranks(edges, rank)
    ensures !Cyclic(edges)
  {
    forall v, w | WalkFromTo(edges, w, v, v) ensures false {
      RankGrows(edges, rank, w, |w| - 1);
    }
  }

  ghost predicate HasPredecessorIn(edges: set<Edge>, s: set<RunId>, v: RunId) {
    exists e :: e in edges && e.dst == v && e.src in s
  }

  ghost predicate NoSource(edges: set<Edge>, s: set<RunId>) {
    forall v {:trigger HasPredecessorIn(edges, s, v)} :: v in s ==> HasPredecessorIn(edges, s, v)
  }

  lemma Prepend(edges: set<Edge>, u: RunId, w: seq<RunId>)
    requires |w| > 0 && IsWalk(edges, w) && Edge(u, w[0]) in edges
    ensures IsWalk(edges, [u] + w)
  {
    var longer := [u] + w;
    forall i | 0 <= i < |longer| - 1 ensures Edge(longer[i], longer[i + 1]) in edges {
      if i > 0 { assert Edge(w[i - 1], w[i - 1 + 1]) in edges; }
    }
  }

  lemma CloseWalk(edges: set<Edge>, w: seq<RunId>, j: nat)
    requires j < |w| && IsWalk(edges, w) && Edge(w[j], w[0]) in edges
    ensures Cyclic(edges)
  {
    Prepend(edges, w[j], w);
    var longer := [w[j]] + w;
    SubWalk(edges, longer, 0, j + 2);
    WalkIsReach(edges, longer[0..j + 2]);
  }

  lemma Predecessor(edges: set<Edge>, s: set<RunId>, v: RunId) returns (u: RunId)
    requires v in s
    requires NoSource(edges, s)
    ensures u in s && Edge(u, v) in edges
  {
    assert HasPredecessorIn(edges, s, v);
    var e :| e in edges && e.dst == v && e.src in s;
    u := e.src;
  }

  lemma {:induction false} WalkBackwards(edges: set<Edge>, s: set<RunId>, w: seq<RunId>, seen: set<RunId>)
    requires |w| > 0 && IsWalk(edges, w) && seen <= s
    requires seen == set x | x in w
    requires NoSource(edges, s)
    ensures Cyclic(edges)
    decreases s - seen
  {
    var u := Predecessor(edges, s, w[0]);
    if u in w {
      var j :| 0 <= j < |w| && w[j] == u;
      CloseWalk(edges, w, j);
    } else {
      Prepend(edges, u, w);
      assert seen + {u} == set x | x in [u] + w;
      WalkBackwards(edges, s, [u] + w, seen + {u});
    }
  }

  /** If every vertex of a non-empty finite set has a predecessor in the set, the set holds a cycle. */
  lemma NoSourceIsCyclic(edges: set<Edge>, s: set<RunId>, v: RunId)
    requires v in s
    requires NoSource(edges, s)
    ensures Cyclic(edges)
  {
    WalkBackwards(edges, s, [v], {v});
  }

  // ----- bookkeeping of the queue: how many edges into a vertex have an unprocessed source

  ghost function Incoming(list: seq<Edge>, v: RunId, done: set<RunId>): nat {
    if list == [] then 0
    else
      var last := list[|list| - 1];
      Incoming(list[..|list| - 1], v, done) + if last.dst == v && last.src !in done then 1 else 0
  }

  ghost function Successors(list: seq<Edge>, u: RunId): seq<RunId> {
    if list == [] then []
    else
      var last := list[|list| - 1];
      Successors(list[..|list| - 1], u) + if last.src == u then [last.dst] else []
  }

  lemma {:induction false} IncomingAfter(list: seq<Edge>, v: RunId, done: set<RunId>, u: RunId)
    requires u !in done
    ensures Incoming(list, v, done) == Incoming(list, v, done + {u}) + multiset(Successors(list, u))[v]
  {
    if list != [] {
      IncomingAfter(list[..|list| - 1], v, done, u);
    }
  }

  lemma {:induction false} IncomingZero(list: seq<Edge>, v: RunId, done: set<RunId>)
    ensures Incoming(list, v, done) == 0 <==> forall e :: e in list && e.dst == v ==> e.src in done
  {
    if list != [] {
      var init := list[..|list| - 1];
      IncomingZero(init, v, done);
      assert list == init + [list[|list| - 1]];
    }
  }

  lemma {:induction false} SuccessorsAreVertices(list: seq<Edge>, u: RunId)
    ensures forall v :: v in Successors(list, u) ==> Edge(u, v) in list
    ensures u !in Vertices(list) ==> Successors(list, u) == []
  {
    if list != [] {
      var init := list[..|list| - 1];
      SuccessorsAreVertices(init, u);
      assert list == init + [list[|list| - 1]];
      assert u !in Vertices(list) ==> u !in Vertices(init);
    }
  }

  lemma PrefixStep(list: seq<Edge>, i: nat, v: RunId)
    requires i < |list|
    ensures Incoming(list[..i + 1], v, {}) == Incoming(list[..i], v, {}) + if list[i].dst == v then 1 else 0
    ensures Successors(list[..i + 1], v) == Successors(list[..i], v) + if list[i].src == v then [list[i].dst] else []
  {
    assert list[..i + 1][..i] == list[..i];
  }

  lemma PrefixVertices(list: seq<Edge>, i: nat)
    requires i < |list|
    ensures Vertices(list[..i + 1]) == Vertices(list[..i]) + {list[i].src, list[i].dst}
  {
    assert list[..i + 1][..i] == list[..i];
  }

  ghost function ListedAt(children: map<RunId, seq<RunId>>, u: RunId): seq<RunId> {
    if u in children then children[u] else []
  }

  ghost predicate DegreesOf(list: seq<Edge>, indegrees: map<RunId, nat>, done: set<RunId>) {
    indegrees.Keys == Vertices(list) && forall v :: v in indegrees ==> indegrees[v] == Incoming(list, v, done)
  }

  lemma NoIncoming(list: seq<Edge>, v: RunId, done: set<RunId>)
    requires v !in Vertices(list)
    ensures Incoming(list, v, done) == 0
  {
    EndpointsAreVertices(list);
    IncomingZero(list, v, done);
  }

  lemma CountedEdge(list: seq<Edge>, i: nat, before: map<RunId, nat>, after: map<RunId, nat>)
    requires i < |list| && DegreesOf(list[..i], before, {})
    requires after.Keys == before.Keys + {list[i].src, list[i].dst}
    requires forall v :: v in after ==>
      after[v] == (if v in before then before[v] else 0) + if v == list[i].dst then 1 else 0
    ensures DegreesOf(list[..i + 1], after, {})
  {
    PrefixVertices(list, i);
    forall v | v in after ensures after[v] == Incoming(list[..i + 1], v, {}) {
      PrefixStep(list, i, v);
      if v !in before { NoIncoming(list[..i], v, {}); }
    }
  }

  /** Fills the in-degree table and the adjacency lists from the edge list. */
  method BuildTables(list: seq<Edge>)
    returns (indegrees: map<RunId, nat>, children: map<RunId, seq<RunId>>)
    ensures DegreesOf(list, indegrees, {})
    ensures forall u :: ListedAt(children, u) == Successors(list, u)
  {
    indegrees, children := map[], map[];
    for i := 0 to |list|
      invariant DegreesOf(list[..i], indegrees, {})
      invariant forall u :: ListedAt(children, u) == Successors(list[..i], u)
    {
      ghost var indegrees0, children0 := indegrees, children;
      var e := list[i];
      if e.src !in indegrees { indegrees := indegrees[e.src := 0]; }
      if e.dst !in indegrees { indegrees := indegrees[e.dst := 0]; }
      indegrees := indegrees[e.dst := indegrees[e.dst] + 1];
      children := children[e.src := (if e.src in children then children[e.src] else []) + [e.dst]];
      CountedEdge(list, i, indegrees0, indegrees);
      forall u ensures ListedAt(children, u) == Successors(list[..i + 1], u) {
        PrefixStep(list, i, u);
        assert ListedAt(children0, u) == Successors(list[..i], u);
      }
    }
    assert list[..|list|] == list;
  }

  ghost predicate Distinct<T>(s: seq<T>) {
    forall i, j :: 0 <= i < j < |s| ==> s[i] != s[j]
  }

  /** The queue lists, without repetition, the unprocessed vertices whose in-degree has reached zero. */
  ghost predicate QueueOf(indegrees: map<RunId, nat>, queue: seq<RunId>, done: set<RunId>) {
    && Distinct(queue)
    && (forall v :: v in queue ==> v in indegrees && v !in done)
    && (forall v :: v in indegrees ==> (indegrees[v] == 0 <==> v in done || v in queue))
  }

  /** The initial queue: every vertex of in-degree zero, in whatever order the table yields them. */
  method SourcesInSomeOrder(indegrees: map<RunId, nat>) returns (queue: seq<RunId>)
    ensures QueueOf(indegrees, queue, {})
  {
    queue := [];
    var rest := indegrees.Keys;
    while rest != {}
      invariant rest <= indegrees.Keys && Distinct(queue)
      invariant forall v :: v in queue <==> v in indegrees && v !in rest && indegrees[v] == 0
    {
      var v :| v in rest;
      if indegrees[v] == 0 { queue := queue + [v]; }
      rest := rest - {v};
    }
  }

  ghost predicate Pending(list: seq<Edge>, indegrees: map<RunId, nat>, done: set<RunId>, left: seq<RunId>) {
    && indegrees.Keys == Vertices(list)
    && forall v :: v in indegrees ==> indegrees[v] == Incoming(list, v, done) + multiset(left)[v]
  }

  lemma LowerStep(list: seq<Edge>, indegrees: map<RunId, nat>, done: set<RunId>, next: seq<RunId>, k: nat)
    requires k < |next| && next[k] in indegrees && Pending(list, indegrees, done, next[k..])
    ensures indegrees[next[k]] > 0
    ensures Pending(list, indegrees[next[k] := indegrees[next[k]] - 1], done, next[k + 1..])
  {
    assert next[k..] == [next[k]] + next[k + 1..];
  }

  lemma EnqueueStep(indegrees: map<RunId, nat>, queue: seq<RunId>, done: set<RunId>, n: RunId, d: nat)
    requires QueueOf(indegrees, queue, done) && n in indegrees && indegrees[n] > 0
    ensures QueueOf(indegrees[n := d], if d == 0 then queue + [n] else queue, done)
  {
    assert n !in queue;
  }

  /** One successor's turn: its in-degree is positive, and lowering it keeps table and queue in step. */
  lemma ReleaseStep(list: seq<Edge>, indegrees: map<RunId, nat>, queue: seq<RunId>, done: set<RunId>, next: seq<RunId>,
                    k: nat)
    requires k < |next| && QueueOf(indegrees, queue, done) && Pending(list, indegrees, done, next[k..])
    requires next[k] in indegrees
    ensures indegrees[next[k]] > 0
    ensures var n := next[k];
            var d := indegrees[n] - 1;
            && QueueOf(indegrees[n := d], if d == 0 then queue + [n] else queue, done)
            && Pending(list, indegrees[n := d], done, next[k + 1..])
  {
    LowerStep(list, indegrees, done, next, k);
    EnqueueStep(indegrees, queue, done, next[k], indegrees[next[k]] - 1);
  }

  /** Lowers the in-degree of each listed successor of the vertex just processed. */
  method ReleaseSuccessors(list: seq<Edge>, next: seq<RunId>, indegrees0: map<RunId, nat>, queue0: seq<RunId>,
                           ghost done: set<RunId>)
    returns (indegrees: map<RunId, nat>, queue: seq<RunId>, ghost guardTaken: bool)
    requires QueueOf(indegrees0, queue0, done)
    requires Pending(list, indegrees0, done, next)
    requires forall v :: v in next ==> v in indegrees0
    ensures QueueOf(indegrees, queue, done) && DegreesOf(list, indegrees, done)
    ensures !guardTaken
  {
    indegrees, queue, guardTaken := indegrees0, queue0, false;
    assert next[0..] == next;
    for k := 0 to |next|
      invariant !guardTaken && indegrees.Keys == indegrees0.Keys
      invariant QueueOf(indegrees, queue, done)
      invariant Pending(list, indegrees, done, next[k..])
    {
      var n := next[k];
      assert n in next;
      if n in indegrees {
        ReleaseStep(list, indegrees, queue, done, next, k);
        if indegrees[n] == 0 {
          guardTaken := true;
          continue;
        }
        indegrees := indegrees[n := indegrees[n] - 1];
        if indegrees[n] == 0 {
          queue := queue + [n];
        }
      }
    }
    assert next[|next|..] == [];
  }

  /** Every edge into a processed vertex comes from a vertex processed earlier. */
  ghost predicate InOrder(list: seq<Edge>, done: set<RunId>, rank: map<RunId, nat>) {
    && rank.Keys == done
    && forall e :: e in list && e.dst in done ==> e.src in done && rank[e.src] < rank[e.dst]
  }

  /** What the main loop knows about the vertices it has processed. */
  ghost predicate Processed(list: seq<Edge>, done: set<RunId>, rank: map<RunId, nat>, visited: nat) {
    && done <= Vertices(list) && |done| == visited
    && InOrder(list, done, rank)
    && forall v :: v in done ==> rank[v] < visited
  }

  lemma ExtendOrder(list: seq<Edge>, done: set<RunId>, rank: map<RunId, nat>, top: nat, run: RunId)
    requires InOrder(list, done, rank) && run !in done && Incoming(list, run, done) == 0
    requires forall v :: v in done ==> rank[v] < top
    ensures InOrder(list, done + {run}, rank[run := top])
  {
    IncomingZero(list, run, done);
  }

  lemma GrowWithin<T>(a: set<T>, b: set<T>, x: T)
    requires a <= b && x in b && x !in a
    ensures a + {x} <= b && |a + {x}| == |a| + 1 <= |b|
  {
    assert b == (a + {x}) + (b - (a + {x}));
  }

  lemma ProcessNext(list: seq<Edge>, done: set<RunId>, rank: map<RunId, nat>, visited: nat, run: RunId)
    requires Processed(list, done, rank, visited)
    requires run in Vertices(list) && run !in done && Incoming(list, run, done) == 0
    ensures Processed(list, done + {run}, rank[run := visited], visited + 1)
    ensures visited + 1 <= |Vertices(list)|
  {
    ExtendOrder(list, done, rank, visited, run);
    GrowWithin(done, Vertices(list), run);
  }

  lemma SplitDegrees(list: seq<Edge>, indegrees: map<RunId, nat>, done: set<RunId>, run: RunId)
    requires DegreesOf(list, indegrees, done) && run !in done
    ensures Pending(list, indegrees, done + {run}, Successors(list, run))
    ensures forall v :: v in Successors(list, run) ==> v in indegrees
  {
    forall v { IncomingAfter(list, v, done, run); }
    EndpointsAreVertices(list);
    SuccessorsAreVertices(list, run);
  }

  lemma SameCardinality<T>(a: set<T>, b: set<T>)
    requires a <= b && |a| == |b|
    ensures a == b
  {
    assert b == a + (b - a);
  }

  lemma NothingLeft(list: seq<Edge>, done: set<RunId>, rank: map<RunId, nat>, visited: nat)
    requires Processed(list, done, rank, visited) && visited == |Vertices(list)|
    ensures !Cyclic(EdgeSet(list))
  {
    SameCardinality(done, Vertices(list));
    EndpointsAreVertices(list);
    RankedIsAcyclic(EdgeSet(list), rank);
  }

  lemma Leftover<T>(a: set<T>, b: set<T>) returns (x: T)
    requires a <= b && |a| != |b|
    ensures x in b - a
  {
    assert b == a + (b - a);
    assert |b| == |a| + |b - a|;
    x :| x in b - a;
  }

  lemma StuckIsCyclic(list: seq<Edge>, indegrees: map<RunId, nat>, done: set<RunId>, visited: nat)
    requires DegreesOf(list, indegrees, done) && QueueOf(indegrees, [], done)
    requires done <= Vertices(list) && |done| == visited && visited != |Vertices(list)|
    ensures Cyclic(EdgeSet(list))
  {
    var left := Vertices(list) - done;
    EndpointsAreVertices(list);
    forall v | v in left ensures HasPredecessorIn(EdgeSet(list), left, v) {
      IncomingZero(list, v, done);
      var e :| e in list && e.dst == v && e.src !in done;
      assert e in EdgeSet(list) && e.src in left;
    }
    var v := Leftover(done, Vertices(list));
    NoSourceIsCyclic(EdgeSet(list), left, v);
  }

  lemma Dequeue(indegrees: map<RunId, nat>, queue: seq<RunId>, done: set<RunId>)
    requires queue != [] && QueueOf(indegrees, queue, done)
    ensures QueueOf(indegrees, queue[1..], done + {queue[0]})
  {
    assert queue == [queue[0]] + queue[1..];
  }

  /** Takes one vertex off the queue and lowers the in-degrees of its successors. */
  method ProcessFront(list: seq<Edge>, children: map<RunId, seq<RunId>>, indegrees0: map<RunId, nat>,
                      queue0: seq<RunId>, ghost done: set<RunId>)
    returns (indegrees: map<RunId, nat>, queue: seq<RunId>, ghost guardTaken: bool)
    requires queue0 != [] && QueueOf(indegrees0, queue0, done) && DegreesOf(list, indegrees0, done)
    requires forall u :: ListedAt(children, u) == Successors(list, u)
    ensures QueueOf(indegrees, queue, done + {queue0[0]}) && DegreesOf(list, indegrees, done + {queue0[0]})
    ensures !guardTaken
  {
    var run := queue0[0];
    assert run in queue0;
    SplitDegrees(list, indegrees0, done, run);
    Dequeue(indegrees0, queue0, done);
    assert ListedAt(children, run) == Successors(list, run);
    if run in children {
      indegrees, queue, guardTaken := ReleaseSuccessors(list, children[run], indegrees0, queue0[1..], done + {run});
    } else {
      indegrees, queue, guardTaken := indegrees0, queue0[1..], false;
    }
  }

  lemma FrontIsReady(list: seq<Edge>, indegrees: map<RunId, nat>, queue: seq<RunId>, done: set<RunId>)
    requires queue != [] && QueueOf(indegrees, queue, done) && DegreesOf(list, indegrees, done)
    ensures queue[0] in Vertices(list) && queue[0] !in done && Incoming(list, queue[0], done) == 0
  {
    assert queue[0] in queue;
  }

  /**
   * Decides cyclicity of an edge list, duplicates and self-loops included. `guardTaken` records
   * whether the loop ever skipped a successor whose in-degree was already zero.
   */
  method GraphHasCycle(list: seq<Edge>) returns (cyclic: bool, ghost guardTaken: bool)
    ensures cyclic <==> Cyclic(EdgeSet(list))
    ensures !guardTaken
  {
    var indegrees, children := BuildTables(list);
    var queue := SourcesInSomeOrder(indegrees);
    var visited := 0;
    guardTaken := false;
    ghost var done: set<RunId> := {};
    ghost var rank: map<RunId, nat> := map[];
    while queue != []
      invariant !guardTaken
      invariant Processed(list, done, rank, visited)
      invariant QueueOf(indegrees, queue, done)
      invariant DegreesOf(list, indegrees, done)
      decreases |Vertices(list)| - visited
    {
      ghost var run := queue[0];
      FrontIsReady(list, indegrees, queue, done);
      ProcessNext(list, done, rank, visited, run);
      indegrees, queue, guardTaken := ProcessFront(list, children, indegrees, queue, done);
      rank := rank[run := visited];
      visited := visited + 1;
      done := done + {run};
    }
    cyclic := visited != |indegrees|;
    if cyclic {
      StuckIsCyclic(list, indegrees, done, visited);
    } else {
      NothingLeft(list, done, rank, visited);
    }
  }
}
