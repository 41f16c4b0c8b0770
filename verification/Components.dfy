/** Counting the dangling components of runs known only from announced relationships. */
module Components {
  import opened Types
  import opened Entities

  // ----- what is counted

  predicate Linked(edges: set<Edge>, a: RunId, b: RunId) {
    Edge(a, b) in edges || Edge(b, a) in edges
  }

  /** Every node lies in `s` and neighbours are linked, in either direction. */
  ghost predicate IsPath(edges: set<Edge>, s: set<RunId>, w: seq<RunId>) {
    && |w| > 0 && (forall x :: x in w ==> x in s)
    && forall i :: 0 <= i < |w| - 1 ==> Linked(edges, w[i], w[i + 1])
  }

  ghost predicate Path(edges: set<Edge>, s: set<RunId>, w: seq<RunId>, a: RunId, b: RunId) {
    IsPath(edges, s, w) && w[0] == a && w[|w| - 1] == b
  }

  ghost predicate Connected(edges: set<Edge>, s: set<RunId>, a: RunId, b: RunId) {
    exists w :: Path(edges, s, w, a, b)
  }

  ghost function Component(edges: set<Edge>, s: set<RunId>, a: RunId): set<RunId> {
    set b | b in s && Connected(edges, s, a, b)
  }

  ghost function Components(edges: set<Edge>, s: set<RunId>): set<set<RunId>> {
    set a | a in s :: Component(edges, s, a)
  }

  /** A known run outside the set that has not reached a terminal state. */
  predicate LiveOutside(runs: map<RunId, TaskRun>, s: set<RunId>, n: RunId) {
    n !in s && n in runs && !runs[n].state.IsTerminal()
  }

  ghost predicate Anchored(edges: set<Edge>, runs: map<RunId, TaskRun>, s: set<RunId>, r: RunId) {
    exists n :: Linked(edges, r, n) && LiveOutside(runs, s, n)
  }

  ghost predicate Dangling(edges: set<Edge>, runs: map<RunId, TaskRun>, s: set<RunId>, c: set<RunId>) {
    forall r :: r in c ==> !Anchored(edges, runs, s, r)
  }

  ghost function DanglingComponents(edges: set<Edge>, runs: map<RunId, TaskRun>, s: set<RunId>): set<set<RunId>> {
    set c | c in Components(edges, s) && Dangling(edges, runs, s, c)
  }

  /** Runs without a controller task-state event and without an execution. */
  function RelationshipOnly(m: Model): set<RunId> {
    set r | r in m.taskRuns && !m.taskRuns[r].hasControllerTaskStateEvent && r !in RunsWithExecutions(m)
  }

  // ----- connectedness is an equivalence

  lemma Itself(edges: set<Edge>, s: set<RunId>, a: RunId)
    requires a in s
    ensures Connected(edges, s, a, a)
  {
    assert Path(edges, s, [a], a, a);
  }

  lemma Extended(edges: set<Edge>, s: set<RunId>, a: RunId, b: RunId, c: RunId)
    requires Connected(edges, s, a, b) && c in s && Linked(edges, b, c)
    ensures Connected(edges, s, a, c)
  {
    var w :| Path(edges, s, w, a, b);
    var longer := w + [c];
    forall i | 0 <= i < |longer| - 1 ensures Linked(edges, longer[i], longer[i + 1]) {
      if i < |w| - 1 { assert Linked(edges, w[i], w[i + 1]); }
    }
    assert Path(edges, s, longer, a, c);
  }

  /** A set that contains the start and is closed under links within `s` contains everything connected to it. */
  lemma {:induction false} ClosedHoldsPath(edges: set<Edge>, s: set<RunId>, closed: set<RunId>, w: seq<RunId>)
    requires IsPath(edges, s, w) && w[0] in closed
    requires forall x, y :: x in closed && y in s && Linked(edges, x, y) ==> y in closed
    ensures w[|w| - 1] in closed
  {
    if |w| > 1 {
      var rest := w[1..];
      assert Linked(edges, w[0], w[1]);
      forall i | 0 <= i < |rest| - 1 ensures Linked(edges, rest[i], rest[i + 1]) {
        assert Linked(edges, w[i + 1], w[i + 1 + 1]);
      }
      assert w[1] in s;
      ClosedHoldsPath(edges, s, closed, rest);
    }
  }

  lemma ClosedHoldsComponent(edges: set<Edge>, s: set<RunId>, closed: set<RunId>, a: RunId)
    requires a in closed && forall x, y :: x in closed && y in s && Linked(edges, x, y) ==> y in closed
    ensures Component(edges, s, a) <= closed
  {
    forall b | b in Component(edges, s, a) ensures b in closed {
      var w :| Path(edges, s, w, a, b);
      ClosedHoldsPath(edges, s, closed, w);
    }
  }

  lemma ComponentIsClosed(edges: set<Edge>, s: set<RunId>, a: RunId)
    ensures forall x, y :: x in Component(edges, s, a) && y in s && Linked(edges, x, y) ==> y in Component(edges, s, a)
  {
    forall x, y | x in Component(edges, s, a) && y in s && Linked(edges, x, y) ensures y in Component(edges, s, a) {
      Extended(edges, s, a, x, y);
    }
  }

  /** Runs of one component have the same component. */
  lemma SameComponent(edges: set<Edge>, s: set<RunId>, a: RunId, b: RunId)
    requires a in s && b in Component(edges, s, a)
    ensures Component(edges, s, b) == Component(edges, s, a)
  {
    Itself(edges, s, a);
    Itself(edges, s, b);
    ComponentIsClosed(edges, s, a);
    ComponentIsClosed(edges, s, b);
    ClosedHoldsComponent(edges, s, Component(edges, s, a), b);
    if a !in Component(edges, s, b) {
      var away := s - Component(edges, s, b);
      ClosedHoldsComponent(edges, s, away, a);
    }
    ClosedHoldsComponent(edges, s, Component(edges, s, b), a);
  }

  // ----- the traversal

  function Neighbors(adjacency: map<RunId, seq<RunId>>, r: RunId): seq<RunId> {
    if r in adjacency then adjacency[r] else []
  }

  function WithNeighbor(adjacency: map<RunId, seq<RunId>>, r: RunId, n: RunId): map<RunId, seq<RunId>> {
    adjacency[r := Neighbors(adjacency, r) + [n]]
  }

  lemma BothDirections(adjacency: map<RunId, seq<RunId>>, e: Edge)
    ensures var after := WithNeighbor(WithNeighbor(adjacency, e.src, e.dst), e.dst, e.src);
            forall a, b :: b in Neighbors(after, a)
                <==> b in Neighbors(adjacency, a) || Edge(a, b) == e || Edge(b, a) == e
  {
  }

  lemma LinkedOneMore(edges: set<Edge>, rest: set<Edge>, e: Edge)
    requires e in rest && rest <= edges
    ensures forall a, b :: Linked(edges - (rest - {e}), a, b)
              <==> Linked(edges - rest, a, b) || Edge(a, b) == e || Edge(b, a) == e
  {
  }

  /** Both directions of every edge, in whatever order the edges come. */
  method BuildAdjacency(edges: set<Edge>, adjacency0: map<RunId, seq<RunId>>)
    returns (adjacency: map<RunId, seq<RunId>>)
    ensures forall a, b :: b in Neighbors(adjacency, a) <==> b in Neighbors(adjacency0, a) || Linked(edges, a, b)
  {
    adjacency := adjacency0;
    var rest := edges;
    while rest != {}
      invariant rest <= edges
      invariant forall a, b :: b in Neighbors(adjacency, a)
                  <==> b in Neighbors(adjacency0, a) || Linked(edges - rest, a, b)
    {
      var e :| e in rest;
      BothDirections(adjacency, e);
      adjacency := WithNeighbor(WithNeighbor(adjacency, e.src, e.dst), e.dst, e.src);
      LinkedOneMore(edges, rest, e);
      rest := rest - {e};
    }
    assert edges - {} == edges;
  }

  /** Everything linked to a member of `done` and lying in `s` is in `all`. */
  ghost predicate ClosedInto(edges: set<Edge>, s: set<RunId>, done: set<RunId>, all: set<RunId>) {
    forall x, y :: x in done && y in s && Linked(edges, x, y) ==> y in all
  }

  /** One pass over the neighbours of a run. */
  method VisitNeighbors(neighbors: seq<RunId>, runs: map<RunId, TaskRun>, s: set<RunId>, visited0: set<RunId>,
                        stack0: seq<RunId>)
    returns (visited: set<RunId>, stack: seq<RunId>, anchored: bool)
    ensures visited == visited0 + (set n | n in neighbors && n in s)
    ensures forall x :: x in stack <==> x in stack0 || x in visited - visited0
    ensures visited == visited0 ==> stack == stack0
    ensures anchored <==> exists n :: n in neighbors && LiveOutside(runs, s, n)
  {
    visited, stack, anchored := visited0, stack0, false;
    for i := 0 to |neighbors|
      invariant visited == visited0 + (set n | n in neighbors[..i] && n in s)
      invariant forall x :: x in stack <==> x in stack0 || x in visited - visited0
      invariant visited == visited0 ==> stack == stack0
      invariant anchored <==> exists n :: n in neighbors[..i] && LiveOutside(runs, s, n)
    {
      var n := neighbors[i];
      assert neighbors[..i + 1] == neighbors[..i] + [n];
      assert forall x :: x in neighbors[..i + 1] <==> x in neighbors[..i] || x == n;
      if n in s {
        if n !in visited {
          visited, stack := visited + {n}, stack + [n];
        }
      } else if n in runs && !runs[n].state.IsTerminal() {
        assert n in neighbors[..i + 1] && LiveOutside(runs, s, n);
        anchored := true;
      }
      assert LiveOutside(runs, s, n) ==> anchored;
    }
    assert neighbors[..|neighbors|] == neighbors;
  }

  ghost predicate AdjacencyOf(edges: set<Edge>, adjacency: map<RunId, seq<RunId>>) {
    forall a, b :: b in Neighbors(adjacency, a) <==> Linked(edges, a, b)
  }

  lemma StepStaysInside(edges: set<Edge>, s: set<RunId>, visited0: set<RunId>, start: RunId, r: RunId,
                        added: set<RunId>)
    requires r in s && r !in visited0 && Connected(edges, s, start, r) && ClosedInto(edges, s, visited0, visited0)
    requires forall n :: n in added ==> n in s && Linked(edges, r, n)
    ensures added <= Component(edges, s, start)
    ensures forall n :: n in s && Linked(edges, r, n) ==> n !in visited0
  {
    forall n | n in added ensures n in Component(edges, s, start) {
      Extended(edges, s, start, r, n);
    }
    forall n | n in s && Linked(edges, r, n) ensures n !in visited0 {
      assert Linked(edges, n, r);
    }
  }

  /** Visits exactly the component of `start`, and finds whether any of it has a live neighbour outside. */
  method Explore(ghost edges: set<Edge>, adjacency: map<RunId, seq<RunId>>, runs: map<RunId, TaskRun>, s: set<RunId>,
                 visited0: set<RunId>, start: RunId) returns (visited: set<RunId>, anchored: bool)
    requires AdjacencyOf(edges, adjacency)
    requires start in s && start !in visited0 && visited0 <= s && ClosedInto(edges, s, visited0, visited0)
    ensures visited == visited0 + Component(edges, s, start)
    ensures anchored <==> !Dangling(edges, runs, s, Component(edges, s, start))
  {
    visited, anchored := visited0 + {start}, false;
    var stack := [start];
    ghost var explored: set<RunId> := {};
    Itself(edges, s, start);
    while stack != []
      invariant visited0 <= visited <= s && explored <= visited - visited0
      invariant forall x :: x in visited - visited0 <==> x in explored || x in stack
      invariant start in visited - visited0 && visited - visited0 <= Component(edges, s, start)
      invariant ClosedInto(edges, s, explored, visited - visited0)
      invariant anchored <==> exists r :: r in explored && Anchored(edges, runs, s, r)
      decreases s - visited, |stack|
    {
      var r := stack[|stack| - 1];
      assert r in visited - visited0;
      ghost var reached := visited;
      assert stack == stack[..|stack| - 1] + [r];
      var found;
      visited, stack, found := VisitNeighbors(Neighbors(adjacency, r), runs, s, visited, stack[..|stack| - 1]);
      anchored := anchored || found;
      assert found <==> Anchored(edges, runs, s, r);
      StepStaysInside(edges, s, visited0, start, r, visited - reached);
      explored := explored + {r};
    }
    assert explored == visited - visited0;
    ClosedHoldsComponent(edges, s, explored, start);
  }

  // ----- the count

  /** The components met so far: each is the component of a visited run, and together they are what was visited. */
  ghost predicate MetSoFar(edges: set<Edge>, s: set<RunId>, visited: set<RunId>, met: set<set<RunId>>) {
    && visited <= s && met <= Components(edges, s)
    && (forall a :: a in visited ==> Component(edges, s, a) in met)
    && (forall c :: c in met ==> c <= visited)
  }

  lemma MeetOne(edges: set<Edge>, s: set<RunId>, visited: set<RunId>, met: set<set<RunId>>, start: RunId)
    requires MetSoFar(edges, s, visited, met) && start in s && start !in visited
    ensures MetSoFar(edges, s, visited + Component(edges, s, start), met + {Component(edges, s, start)})
    ensures Component(edges, s, start) !in met
  {
    Itself(edges, s, start);
    forall a | a in Component(edges, s, start) ensures Component(edges, s, a) == Component(edges, s, start) {
      SameComponent(edges, s, start, a);
    }
  }

  lemma VisitedIsClosed(edges: set<Edge>, s: set<RunId>, visited: set<RunId>, met: set<set<RunId>>)
    requires MetSoFar(edges, s, visited, met)
    ensures ClosedInto(edges, s, visited, visited)
  {
    forall x, y | x in visited && y in s && Linked(edges, x, y) ensures y in visited {
      Itself(edges, s, x);
      Extended(edges, s, x, x, y);
      assert y in Component(edges, s, x);
    }
  }

  lemma AllMet(edges: set<Edge>, s: set<RunId>, visited: set<RunId>, met: set<set<RunId>>)
    requires MetSoFar(edges, s, visited, met) && visited == s
    ensures met == Components(edges, s)
  {
  }

  ghost function DanglingOf(edges: set<Edge>, runs: map<RunId, TaskRun>, s: set<RunId>,
                            met: set<set<RunId>>): set<set<RunId>> {
    set c | c in met && Dangling(edges, runs, s, c)
  }

  lemma CountOneMore(edges: set<Edge>, runs: map<RunId, TaskRun>, s: set<RunId>, met: set<set<RunId>>, c: set<RunId>)
    requires c !in met
    ensures |DanglingOf(edges, runs, s, met + {c})|
            == |DanglingOf(edges, runs, s, met)| + if Dangling(edges, runs, s, c) then 1 else 0
  {
    assert DanglingOf(edges, runs, s, met + {c})
           == DanglingOf(edges, runs, s, met) + if Dangling(edges, runs, s, c) then {c} else {};
  }

  method CountComponents(ghost edges: set<Edge>, adjacency: map<RunId, seq<RunId>>, runs: map<RunId, TaskRun>,
                         s: set<RunId>)
    returns (count: nat)
    requires AdjacencyOf(edges, adjacency)
    ensures count == |DanglingComponents(edges, runs, s)|
  {
    var visited: set<RunId> := {};
    ghost var met: set<set<RunId>> := {};
    var rest := s;
    count := 0;
    assert DanglingOf(edges, runs, s, met) == {};
    while rest != {}
      invariant rest <= s && s - rest <= visited
      invariant MetSoFar(edges, s, visited, met)
      invariant count == |DanglingOf(edges, runs, s, met)|
    {
      var start :| start in rest;
      rest := rest - {start};
      if start !in visited {
        VisitedIsClosed(edges, s, visited, met);
        MeetOne(edges, s, visited, met, start);
        Itself(edges, s, start);
        var anchored;
        visited, anchored := Explore(edges, adjacency, runs, s, visited, start);
        CountOneMore(edges, runs, s, met, Component(edges, s, start));
        met := met + {Component(edges, s, start)};
        if !anchored { count := count + 1; }
      }
    }
    AllMet(edges, s, visited, met);
    assert DanglingOf(edges, runs, s, met) == DanglingComponents(edges, runs, s);
  }

  /** The count is the number of dangling components, in whatever order runs and edges are met. */
  method DanglingAnnouncementComponents(m: Model) returns (count: nat)
    ensures count == |DanglingComponents(m.executionEdges + m.dependencyEdges, m.taskRuns, RelationshipOnly(m))|
  {
    ghost var edges := m.executionEdges + m.dependencyEdges;
    var adjacency := BuildAdjacency(m.executionEdges, map[]);
    adjacency := BuildAdjacency(m.dependencyEdges, adjacency);
    assert AdjacencyOf(edges, adjacency);
    var s := RelationshipOnly(m);
    count := CountComponents(edges, adjacency, m.taskRuns, s);
  }

  /** No row of the model speaks for the run: neither a state event of its controller nor an execution. */
  ghost predicate OnlyAnnounced(m: Model, r: RunId) {
    && r in m.taskRuns && !m.taskRuns[r].hasControllerTaskStateEvent
    && forall i :: i in m.executions ==> m.executions[i].taskRunId != r
  }

  /** The edge joins the two runs, in either table and either direction. */
  predicate Announced(m: Model, a: RunId, b: RunId) {
    || Edge(a, b) in m.executionEdges || Edge(b, a) in m.executionEdges
    || Edge(a, b) in m.dependencyEdges || Edge(b, a) in m.dependencyEdges
  }

  predicate Underway(m: Model, r: RunId) {
    r in m.taskRuns && m.taskRuns[r].state in {Queued, Running, TaskState.Blocked}
  }

  lemma OnlyAnnouncedExactly(m: Model, r: RunId)
    ensures r in RelationshipOnly(m) <==> OnlyAnnounced(m, r)
  {
    assert r in RunsWithExecutions(m) <==> exists i :: i in m.executions && m.executions[i].taskRunId == r;
  }

  /**
   * A component is counted exactly when each of its runs is announced only, and every known run beside it that is
   * queued, running or blocked is announced only as well.
   */
  lemma CountedExactly(m: Model, c: set<RunId>)
    requires c in Components(m.executionEdges + m.dependencyEdges, RelationshipOnly(m))
    ensures (forall r :: r in c ==> OnlyAnnounced(m, r))
    ensures c in DanglingComponents(m.executionEdges + m.dependencyEdges, m.taskRuns, RelationshipOnly(m))
            <==> forall r, n :: r in c && Announced(m, r, n) && Underway(m, n) ==> OnlyAnnounced(m, n)
  {
    var edges, s := m.executionEdges + m.dependencyEdges, RelationshipOnly(m);
    forall r ensures r in s <==> OnlyAnnounced(m, r) { OnlyAnnouncedExactly(m, r); }
    var a :| a in s && c == Component(edges, s, a);
    forall n ensures LiveOutside(m.taskRuns, s, n)
      <==> Underway(m, n) && !OnlyAnnounced(m, n) {}
    forall r, n ensures Linked(edges, r, n) <==> Announced(m, r, n) {}
  }
}
