/** When contracting two vertices, or adding one edge, keeps a forest a forest and a DAG a DAG. */
module Contraction {
  import opened Types
  import opened Digraph

  function Substitute(run: RunId, survivor: RunId, absorbed: RunId): RunId {
    if run == absorbed then survivor else run
  }

  function SubstituteEdge(e: Edge, survivor: RunId, absorbed: RunId): Edge {
    Edge(Substitute(e.src, survivor, absorbed), Substitute(e.dst, survivor, absorbed))
  }

  /** The edge set after every mention of `absorbed` is replaced by `survivor`. */
  function Image(edges: set<Edge>, survivor: RunId, absorbed: RunId): set<Edge> {
    set e | e in edges :: SubstituteEdge(e, survivor, absorbed)
  }

  predicate NoSelfEdge(edges: set<Edge>) {
    forall e :: e in edges ==> e.src != e.dst
  }

  predicate OneParent(edges: set<Edge>) {
    forall e, f :: e in edges && f in edges && e.dst == f.dst ==> e.src == f.src
  }

  /** Dispatch edges: no self-edge, at most one parent per child, no cycle. */
  ghost predicate Forest(edges: set<Edge>) {
    NoSelfEdge(edges) && OneParent(edges) && !Cyclic(edges)
  }

  /** Dependency edges: no self-edge, no cycle. */
  ghost predicate Dag(edges: set<Edge>) {
    NoSelfEdge(edges) && !Cyclic(edges)
  }

  lemma EdgeReaches(edges: set<Edge>, e: Edge)
    requires e in edges
    ensures Reaches(edges, e.src, e.dst)
  {
    assert WalkFromTo(edges, [e.src, e.dst], e.src, e.dst);
  }

  lemma ReachesTransitive(edges: set<Edge>, a: RunId, b: RunId, c: RunId)
    requires Reaches(edges, a, b) && Reaches(edges, b, c)
    ensures Reaches(edges, a, c)
  {
    var v :| WalkFromTo(edges, v, a, b);
    var w :| WalkFromTo(edges, w, b, c);
    var joined := v + w[1..];
    forall i | 0 <= i < |joined| - 1 ensures Edge(joined[i], joined[i + 1]) in edges {
      if i >= |v| - 1 {
        assert Edge(w[i - |v| + 1], w[i - |v| + 1 + 1]) in edges;
      }
    }
    assert WalkFromTo(edges, joined, a, c);
  }

  lemma SelfEdgeIsCyclic(edges: set<Edge>)
    requires !NoSelfEdge(edges)
    ensures Cyclic(edges)
  {
    var e :| e in edges && e.src == e.dst;
    EdgeReaches(edges, e);
  }

  // ----- contraction

  /** `x` is a vertex that the contraction maps to `y`. */
  predicate Lifts(x: RunId, y: RunId, survivor: RunId, absorbed: RunId) {
    Substitute(x, survivor, absorbed) == y
  }

  ghost predicate ReachesFromLift(edges: set<Edge>, p: RunId, q: RunId, survivor: RunId, absorbed: RunId) {
    exists x, y :: Reaches(edges, x, y) && Lifts(y, q, survivor, absorbed)
                   && (Lifts(x, p, survivor, absorbed) || Lifts(x, survivor, survivor, absorbed))
  }

  ghost predicate ReachesToLift(edges: set<Edge>, p: RunId, q: RunId, survivor: RunId, absorbed: RunId) {
    exists x, y :: Reaches(edges, x, y) && Lifts(x, p, survivor, absorbed)
                   && (Lifts(y, q, survivor, absorbed) || Lifts(y, survivor, survivor, absorbed))
  }

  lemma LiftEdge(edges: set<Edge>, survivor: RunId, absorbed: RunId, p: RunId, q: RunId) returns (e: Edge)
    requires Edge(p, q) in Image(edges, survivor, absorbed)
    ensures e in edges && SubstituteEdge(e, survivor, absorbed) == Edge(p, q) && Reaches(edges, e.src, e.dst)
  {
    e :| e in edges && SubstituteEdge(e, survivor, absorbed) == Edge(p, q);
    EdgeReaches(edges, e);
  }

  /** The end of a walk in the image is reached from the walk's start, or from one of the merged pair. */
  lemma {:induction false} LiftTail(edges: set<Edge>, survivor: RunId, absorbed: RunId, w: seq<RunId>)
    requires |w| >= 2 && IsWalk(Image(edges, survivor, absorbed), w)
    ensures ReachesFromLift(edges, w[0], w[|w| - 1], survivor, absorbed)
    decreases |w|
  {
    var n := |w|;
    assert Edge(w[n - 2], w[n - 2 + 1]) in Image(edges, survivor, absorbed);
    var e := LiftEdge(edges, survivor, absorbed, w[n - 2], w[n - 1]);
    if n > 2 && w[n - 2] != survivor {
      SubWalk(Image(edges, survivor, absorbed), w, 0, n - 1);
      LiftTail(edges, survivor, absorbed, w[0..n - 1]);
      var x, y :| Reaches(edges, x, y) && Lifts(y, w[n - 2], survivor, absorbed)
                  && (Lifts(x, w[0], survivor, absorbed) || Lifts(x, survivor, survivor, absorbed));
      ReachesTransitive(edges, x, y, e.dst);
    }
  }

  lemma {:induction false} LiftHead(edges: set<Edge>, survivor: RunId, absorbed: RunId, w: seq<RunId>)
    requires |w| >= 2 && IsWalk(Image(edges, survivor, absorbed), w)
    ensures ReachesToLift(edges, w[0], w[|w| - 1], survivor, absorbed)
    decreases |w|
  {
    var n := |w|;
    assert Edge(w[0], w[0 + 1]) in Image(edges, survivor, absorbed);
    var e := LiftEdge(edges, survivor, absorbed, w[0], w[1]);
    if n > 2 && w[1] != survivor {
      SubWalk(Image(edges, survivor, absorbed), w, 1, n);
      LiftHead(edges, survivor, absorbed, w[1..n]);
      var x, y :| Reaches(edges, x, y) && Lifts(x, w[1], survivor, absorbed)
                  && (Lifts(y, w[n - 1], survivor, absorbed) || Lifts(y, survivor, survivor, absorbed));
      ReachesTransitive(edges, e.src, x, y);
    }
  }

  lemma ImageWalk(edges: set<Edge>, survivor: RunId, absorbed: RunId, a: RunId, b: RunId)
    requires Reaches(edges, a, b)
    ensures Reaches(Image(edges, survivor, absorbed), Substitute(a, survivor, absorbed),
                    Substitute(b, survivor, absorbed))
  {
    var w :| WalkFromTo(edges, w, a, b);
    var image := seq(|w|, i requires 0 <= i < |w| => Substitute(w[i], survivor, absorbed));
    forall i | 0 <= i < |image| - 1 ensures Edge(image[i], image[i + 1]) in Image(edges, survivor, absorbed) {
      assert SubstituteEdge(Edge(w[i], w[i + 1]), survivor, absorbed) == Edge(image[i], image[i + 1]);
    }
    WalkIsReach(Image(edges, survivor, absorbed), image);
  }

  lemma CyclicImageJoinsPair(edges: set<Edge>, survivor: RunId, absorbed: RunId)
    requires !Cyclic(edges) && Cyclic(Image(edges, survivor, absorbed))
    ensures Reaches(edges, survivor, absorbed) || Reaches(edges, absorbed, survivor)
  {
    var v :| Reaches(Image(edges, survivor, absorbed), v, v);
    var w :| WalkFromTo(Image(edges, survivor, absorbed), w, v, v);
    LiftTail(edges, survivor, absorbed, w);
    var x, y :| Reaches(edges, x, y) && Lifts(y, v, survivor, absorbed)
                && (Lifts(x, v, survivor, absorbed) || Lifts(x, survivor, survivor, absorbed));
    LiftHead(edges, survivor, absorbed, w);
    var p, q :| Reaches(edges, p, q) && Lifts(p, v, survivor, absorbed)
                && (Lifts(q, v, survivor, absorbed) || Lifts(q, survivor, survivor, absorbed));
    if v != survivor {
      assert y == v == p;
      if x != v && q != v {
        ReachesTransitive(edges, x, v, q);
      }
    }
  }

  /** Contracting two vertices of an acyclic graph closes a cycle exactly when one reaches the other. */
  lemma ContractionCycle(edges: set<Edge>, survivor: RunId, absorbed: RunId)
    requires survivor != absorbed && !Cyclic(edges)
    ensures Cyclic(Image(edges, survivor, absorbed))
       <==> Reaches(edges, survivor, absorbed) || Reaches(edges, absorbed, survivor)
  {
    if Reaches(edges, survivor, absorbed) {
      ImageWalk(edges, survivor, absorbed, survivor, absorbed);
    } else if Reaches(edges, absorbed, survivor) {
      ImageWalk(edges, survivor, absorbed, absorbed, survivor);
    } else if Cyclic(Image(edges, survivor, absorbed)) {
      CyclicImageJoinsPair(edges, survivor, absorbed);
    }
  }

  lemma DagContraction(edges: set<Edge>, survivor: RunId, absorbed: RunId)
    requires survivor != absorbed && Dag(edges)
    ensures Dag(Image(edges, survivor, absorbed))
       <==> !Reaches(edges, survivor, absorbed) && !Reaches(edges, absorbed, survivor)
  {
    ContractionCycle(edges, survivor, absorbed);
    if !NoSelfEdge(Image(edges, survivor, absorbed)) {
      SelfEdgeIsCyclic(Image(edges, survivor, absorbed));
    }
  }

  /** The two runs do not have different parents. */
  predicate ParentsAgree(edges: set<Edge>, a: RunId, b: RunId) {
    forall e, f :: e in edges && f in edges && e.dst == a && f.dst == b ==> e.src == f.src
  }

  lemma ForestContraction(edges: set<Edge>, survivor: RunId, absorbed: RunId)
    requires survivor != absorbed && Forest(edges)
    ensures Forest(Image(edges, survivor, absorbed))
       <==> && !Reaches(edges, survivor, absorbed) && !Reaches(edges, absorbed, survivor)
            && ParentsAgree(edges, survivor, absorbed)
  {
    var image := Image(edges, survivor, absorbed);
    DagContraction(edges, survivor, absorbed);
    if !Reaches(edges, survivor, absorbed) && !Reaches(edges, absorbed, survivor) {
      if OneParent(image) {
        forall e, f | e in edges && f in edges && e.dst == survivor && f.dst == absorbed ensures e.src == f.src {
          EdgeReaches(edges, e);
          EdgeReaches(edges, f);
          assert SubstituteEdge(e, survivor, absorbed) in image && SubstituteEdge(f, survivor, absorbed) in image;
        }
      }
      if ParentsAgree(edges, survivor, absorbed) {
        forall g, h | g in image && h in image && g.dst == h.dst ensures g.src == h.src {
          var e :| e in edges && SubstituteEdge(e, survivor, absorbed) == g;
          var f :| f in edges && SubstituteEdge(f, survivor, absorbed) == h;
        }
      }
    }
  }

  // ----- insertion

  /** `p` reaches `q` without the new edge, or by way of it. */
  ghost predicate ReachesAround(edges: set<Edge>, c: Edge, p: RunId, q: RunId) {
    || Reaches(edges, p, q)
    || ((p == c.src || Reaches(edges, p, c.src)) && (q == c.dst || Reaches(edges, c.dst, q)))
  }

  lemma {:induction false} WalkAround(edges: set<Edge>, c: Edge, w: seq<RunId>)
    requires |w| >= 2 && IsWalk(edges + {c}, w)
    ensures ReachesAround(edges, c, w[0], w[|w| - 1])
  {
    var n := |w|;
    assert Edge(w[n - 2], w[n - 2 + 1]) in edges + {c};
    var last := Edge(w[n - 2], w[n - 1]);
    if last in edges { EdgeReaches(edges, last); }
    if n > 2 {
      SubWalk(edges + {c}, w, 0, n - 1);
      WalkAround(edges, c, w[0..n - 1]);
      if last in edges {
        if Reaches(edges, w[0], w[n - 2]) {
          ReachesTransitive(edges, w[0], w[n - 2], w[n - 1]);
        } else if w[n - 2] != c.dst {
          ReachesTransitive(edges, c.dst, w[n - 2], w[n - 1]);
        }
      }
    }
  }

  lemma MoreEdgesReach(edges: set<Edge>, more: set<Edge>, a: RunId, b: RunId)
    requires edges <= more && Reaches(edges, a, b)
    ensures Reaches(more, a, b)
  {
    var w :| WalkFromTo(edges, w, a, b);
    forall i | 0 <= i < |w| - 1 ensures Edge(w[i], w[i + 1]) in more {
      assert Edge(w[i], w[i + 1]) in edges;
    }
    assert WalkFromTo(more, w, a, b);
  }

  /** Adding an edge to an acyclic graph closes a cycle exactly when it is a loop or runs backwards. */
  lemma InsertionCycle(edges: set<Edge>, c: Edge)
    requires !Cyclic(edges)
    ensures Cyclic(edges + {c}) <==> c.src == c.dst || Reaches(edges, c.dst, c.src)
  {
    EdgeReaches(edges + {c}, c);
    if Reaches(edges, c.dst, c.src) {
      MoreEdgesReach(edges, edges + {c}, c.dst, c.src);
      ReachesTransitive(edges + {c}, c.src, c.dst, c.src);
    }
    if Cyclic(edges + {c}) {
      var v :| Reaches(edges + {c}, v, v);
      var w :| WalkFromTo(edges + {c}, w, v, v);
      WalkAround(edges, c, w);
      if v != c.dst && v != c.src {
        ReachesTransitive(edges, c.dst, v, c.src);
      }
    }
  }

  lemma DagInsertion(edges: set<Edge>, c: Edge)
    requires Dag(edges)
    ensures Dag(edges + {c}) <==> c.src != c.dst && !Reaches(edges, c.dst, c.src)
  {
    InsertionCycle(edges, c);
  }

  lemma ForestInsertion(edges: set<Edge>, c: Edge)
    requires Forest(edges)
    ensures Forest(edges + {c})
       <==> && c.src != c.dst && !Reaches(edges, c.dst, c.src)
            && forall e :: e in edges && e.dst == c.dst ==> e.src == c.src
  {
    InsertionCycle(edges, c);
    assert c in edges + {c};
  }
}
