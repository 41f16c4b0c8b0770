/** Binding evidence, the plans it yields, and the only path that mutates run identity. */
module Identity {
  import opened Types
  import opened Digraph
  import opened Contraction
  import opened Entities
  import opened Domain

  datatype BindingEvidence =
    | NativeSession(run: RunId, provider: Provider, sid: string)
    | HeuristicNativeSession(run: RunId, sid: string)
    | NativePathResolved(run: RunId, provider: Provider, sid: string)
    | ControllerNativeSession(run: RunId, provider: Provider, sid: string)
    | ControllerTerminal(run: RunId, terminalId: string)

  datatype MergeConflict =
    | MissingRun(run: RunId)
    | SameRun(run: RunId)
    | LowerPrioritySurvivor(survivor: RunId, absorbed: RunId)
    | EvidenceMismatch(run: RunId)
    | ExplicitControllerEvidenceRequired(controller: RunId, observed: RunId)
    | ControllerRunRequired(run: RunId)
    | ControllerIdentityAlreadyBound(owner: RunId, claimant: RunId)
    | NativeSessionAlreadyBound(session: RunKey, owner: RunId, claimant: RunId)
    | DifferingNativeSessions(survivor: RunId, absorbed: RunId)
    | MultipleNativeSessions(run: RunId)
    | NativeSessionRebind(run: RunId)
    | KeyAlreadyBound(owner: RunId, claimant: RunId)
    | UnsupportedBindingKey
    | AmbiguousTerminal(terminalId: string, runs: seq<RunId>)
    | DispatchSelfEdge(run: RunId)
    | DependencySelfEdge(run: RunId)
    | DispatchCycle
    | DependencyCycle
    | DifferingDispatchParents(child: RunId, firstParent: RunId, secondParent: RunId)

  datatype BindingPlan =
    | NoChange
    | Bind(run: RunId, key: RunKey)
    | Merge(survivor: RunId, absorbed: RunId)
    | Conflict(conflict: MergeConflict)

  type Applying = Result<seq<PersistOp>, MergeConflict>

  // ----- native bindings of one run

  function NativeBindings(m: Model, run: RunId): set<RunKey> {
    (if run in m.taskRuns && m.taskRuns[run].key.Native? then {m.taskRuns[run].key} else {})
    + (set k | k in m.keyOwner && m.keyOwner[k] == run && k.Native?)
  }

  predicate AtMostOne<T(==)>(s: set<T>) {
    forall x, y :: x in s && y in s ==> x == y
  }

  function SingleNativeBinding(m: Model, run: RunId): Result<Option<RunKey>, MergeConflict> {
    var bindings := NativeBindings(m, run);
    if !AtMostOne(bindings) then Err(MultipleNativeSessions(run))
    else if bindings == {} then Ok(None)
    else
      var k :| k in bindings;
      Ok(Some(k))
  }

  lemma AtMostOneByCount<T>(s: set<T>)
    ensures AtMostOne(s) <==> |s| <= 1
  {
    if !AtMostOne(s) {
      var x, y :| x in s && y in s && x != y;
      assert s == {x, y} + (s - {x, y});
      assert |{x, y}| == 2;
    } else if s != {} {
      var x :| x in s;
      assert s == {x};
    }
  }

  method CollectNativeKeys(owners: map<RunKey, RunId>, run: RunId, own: set<RunKey>) returns (bindings: set<RunKey>)
    ensures bindings == own + set k | k in owners && owners[k] == run && k.Native?
  {
    bindings := own;
    var rest := owners.Keys;
    while rest != {}
      invariant rest <= owners.Keys
      invariant forall k :: k in bindings <==> k in own || (k in owners && k !in rest && owners[k] == run && k.Native?)
    {
      var k :| k in rest;
      if owners[k] == run && k.Native? { bindings := bindings + {k}; }
      rest := rest - {k};
    }
  }

  method FindSingleNativeBinding(model: DomainModel, run: RunId) returns (r: Result<Option<RunKey>, MergeConflict>)
    ensures r == SingleNativeBinding(model.State(), run)
  {
    var own := if run in model.taskRuns && model.taskRuns[run].key.Native? then {model.taskRuns[run].key} else {};
    var bindings := CollectNativeKeys(model.keyOwner, run, own);
    assert bindings == NativeBindings(model.State(), run);
    AtMostOneByCount(bindings);
    if |bindings| > 1 { return Err(MultipleNativeSessions(run)); }
    if bindings == {} { return Ok(None); }
    var k :| k in bindings;
    return Ok(Some(k));
  }

  // ----- planning

  /** What the evidence asks for; a proposed merge still has to pass its preflight. */
  datatype Decision = Settled(plan: BindingPlan) | Propose(survivor: RunId, absorbed: RunId)

  function Refuse(conflict: MergeConflict): Decision { Settled(Conflict(conflict)) }

  function DecideNativeSession(m: Model, run: RunId, provider: Provider, sid: string): Decision {
    if run !in m.taskRuns then Refuse(MissingRun(run))
    else
      var observed := m.taskRuns[run];
      var key := Native(provider, sid);
      match m.RunByKey(key)
      case Some(owner) =>
        if owner.runId == run then Settled(NoChange)
        else if owner.key.Controller? then Refuse(ExplicitControllerEvidenceRequired(owner.runId, run))
        else if observed.key.Controller? then Refuse(ExplicitControllerEvidenceRequired(run, owner.runId))
        else if observed.key.Provisional? then Propose(owner.runId, run)
        else Refuse(EvidenceMismatch(run))
      case None =>
        if observed.key.Provisional? || observed.key == key then Settled(Bind(run, key))
        else if observed.key.Controller? then Refuse(ExplicitControllerEvidenceRequired(run, run))
        else Refuse(EvidenceMismatch(run))
  }

  function DecideHeuristicSession(m: Model, run: RunId, sid: string): Decision {
    if run !in m.taskRuns then Refuse(MissingRun(run))
    else
      var key := Native(Codex, sid);
      match m.taskRuns[run].key
      case Provisional(_, _, _) =>
        (match m.RunByKey(key)
         case Some(owner) => Refuse(NativeSessionAlreadyBound(key, owner.runId, run))
         case None => DecideNativeSession(m, run, Codex, sid))
      case Native(p, bound) =>
        if p == Codex && bound == sid then Settled(NoChange) else Refuse(EvidenceMismatch(run))
      case _ => Refuse(EvidenceMismatch(run))
  }

  function DecidePathResolution(m: Model, run: RunId, provider: Provider, sid: string): Decision {
    if run !in m.taskRuns then Refuse(MissingRun(run))
    else if !(m.taskRuns[run].key.NativePath? && m.taskRuns[run].key.pathProvider == provider)
        then Refuse(EvidenceMismatch(run))
    else
      var key := Native(provider, sid);
      match m.RunByKey(key)
      case Some(owner) => if owner.runId == run then Settled(NoChange) else Propose(owner.runId, run)
      case None => Settled(Bind(run, key))
  }

  function DecideControllerNative(m: Model, run: RunId, provider: Provider, sid: string): Decision {
    if run !in m.taskRuns then Refuse(MissingRun(run))
    else if !m.taskRuns[run].key.Controller? then Refuse(ControllerRunRequired(run))
    else
      var key := Native(provider, sid);
      match m.RunByKey(key)
      case Some(owner) =>
        if owner.runId == run then Settled(NoChange)
        else if owner.key.Controller? then Refuse(NativeSessionAlreadyBound(key, owner.runId, run))
        else Propose(run, owner.runId)
      case None =>
        match SingleNativeBinding(m, run)
        case Err(conflict) => Refuse(conflict)
        case Ok(bound) => if bound.Some? && bound.value != key then Refuse(NativeSessionRebind(run))
            else Settled(Bind(run, key))
  }

  /** The runs with a live execution in the terminal. */
  function LiveRuns(m: Model, terminalId: string): set<RunId> {
    set i | i in m.executions && m.executions[i].terminalId == terminalId && !m.executions[i].state.IsTerminal()
          :: m.executions[i].taskRunId
  }

  predicate IsLeast(x: RunId, s: set<RunId>) {
    x in s && forall y :: y in s ==> x <= y
  }

  lemma {:induction false} LeastExists(s: set<RunId>)
    requires s != {}
    ensures exists x :: IsLeast(x, s)
  {
    var x :| x in s;
    if s == {x} {
      assert IsLeast(x, s);
    } else {
      LeastExists(s - {x});
      var y :| IsLeast(y, s - {x});
      var least := if x < y then x else y;
      forall z | z in s ensures least <= z {
        if z != x { assert z in s - {x}; }
      }
      assert IsLeast(least, s);
    }
  }

  function Least(s: set<RunId>): (x: RunId)
    requires s != {}
    ensures IsLeast(x, s)
  {
    LeastExists(s);
    var x :| IsLeast(x, s);
    x
  }

  /** The runs in ascending order, without repetition. */
  function Sorted(s: set<RunId>): (r: seq<RunId>)
    ensures forall i, j :: 0 <= i < j < |r| ==> r[i] < r[j]
    ensures forall x :: x in r <==> x in s
    ensures |r| == |s|
  {
    if s == {} then [] else [Least(s)] + Sorted(s - {Least(s)})
  }

  function DecideControllerTerminal(m: Model, run: RunId, terminalId: string): Decision {
    if run !in m.taskRuns then Refuse(MissingRun(run))
    else if !m.taskRuns[run].key.Controller? then Refuse(ControllerRunRequired(run))
    else
      var live := Sorted(LiveRuns(m, terminalId));
      if live == [] || live == [run] then Settled(NoChange)
      else if |live| > 1 then Refuse(AmbiguousTerminal(terminalId, live))
      else if live[0] !in m.taskRuns then Refuse(MissingRun(live[0]))
      else if m.taskRuns[live[0]].key.Controller? then Refuse(ControllerIdentityAlreadyBound(live[0], run))
      else Propose(run, live[0])
  }

  function Decide(m: Model, ev: BindingEvidence): Decision {
    match ev
    case NativeSession(run, provider, sid) => DecideNativeSession(m, run, provider, sid)
    case HeuristicNativeSession(run, sid) => DecideHeuristicSession(m, run, sid)
    case NativePathResolved(run, provider, sid) => DecidePathResolution(m, run, provider, sid)
    case ControllerNativeSession(run, provider, sid) => DecideControllerNative(m, run, provider, sid)
    case ControllerTerminal(run, terminalId) => DecideControllerTerminal(m, run, terminalId)
  }

  // ----- merge preflight

  function KeyPriority(key: RunKey): nat {
    match key
    case Controller(_) => 3
    case Native(_, _) => 2
    case NativePath(_, _) => 1
    case Provisional(_, _, _) => 0
  }

  /** The identity half of the preflight, in the order in which its checks run. */
  function IdentityRefusal(m: Model, survivor: RunId, absorbed: RunId): Option<MergeConflict> {
    if survivor !in m.taskRuns then Some(MissingRun(survivor))
    else if absorbed !in m.taskRuns then Some(MissingRun(absorbed))
    else if survivor == absorbed then Some(SameRun(survivor))
    else
      var s, a := m.taskRuns[survivor].key, m.taskRuns[absorbed].key;
      if KeyPriority(s) < KeyPriority(a) then Some(LowerPrioritySurvivor(survivor, absorbed))
      else if s.Controller? && a.Controller? then Some(ControllerIdentityAlreadyBound(absorbed, survivor))
      else
        match (SingleNativeBinding(m, survivor), SingleNativeBinding(m, absorbed))
        case (Err(conflict), _) => Some(conflict)
        case (_, Err(conflict)) => Some(conflict)
        case (Ok(Some(left)), Ok(Some(right))) =>
          if left != right then Some(DifferingNativeSessions(survivor, absorbed))
          else Some(NativeSessionAlreadyBound(left, survivor, absorbed))
        case _ => None
  }

  /** A conflict the dispatch check may report for a graph that is not a forest. */
  ghost predicate DispatchRefusal(edges: set<Edge>, c: MergeConflict) {
    match c
    case DispatchSelfEdge(run) => Edge(run, run) in edges
    case DifferingDispatchParents(child, p, q) => p < q && Edge(p, child) in edges && Edge(q, child) in edges
    case DispatchCycle => NoSelfEdge(edges) && OneParent(edges) && Cyclic(edges)
    case _ => false
  }

  ghost predicate DependencyRefusal(edges: set<Edge>, c: MergeConflict) {
    match c
    case DependencySelfEdge(run) => Edge(run, run) in edges
    case DependencyCycle => NoSelfEdge(edges) && Cyclic(edges)
    case _ => false
  }

  ghost predicate MergeAccepted(m: Model, survivor: RunId, absorbed: RunId) {
    && IdentityRefusal(m, survivor, absorbed).None?
    && Forest(Image(m.executionEdges, survivor, absorbed))
    && Dag(Image(m.dependencyEdges, survivor, absorbed))
  }

  ghost predicate MergeRefusal(m: Model, survivor: RunId, absorbed: RunId, c: MergeConflict) {
    var identity := IdentityRefusal(m, survivor, absorbed);
    if identity.Some? then c == identity.value
    else if !Forest(Image(m.executionEdges, survivor, absorbed)) then
      DispatchRefusal(Image(m.executionEdges, survivor, absorbed), c)
    else
      !Dag(Image(m.dependencyEdges, survivor, absorbed))
      && DependencyRefusal(Image(m.dependencyEdges, survivor, absorbed), c)
  }

  function SortedPair(a: RunId, b: RunId): (RunId, RunId) {
    if a <= b then (a, b) else (b, a)
  }

  /** The table lists exactly the edges seen, which have no self-edge and one parent per child. */
  ghost predicate ParentTable(parents: map<RunId, RunId>, seen: set<Edge>) {
    && NoSelfEdge(seen)
    && (forall e :: e in seen ==> e.dst in parents && parents[e.dst] == e.src)
    && (forall c :: c in parents ==> Edge(parents[c], c) in seen)
  }

  /** Adds one dispatch edge to the parent table, or reports why the edges seen so far are no forest. */
  method AdmitParent(e: Edge, parents: map<RunId, RunId>, ghost seen: set<Edge>)
    returns (after: map<RunId, RunId>, refused: Option<MergeConflict>)
    requires ParentTable(parents, seen)
    ensures refused.None? ==> ParentTable(after, seen + {e})
    ensures refused.Some? ==> DispatchRefusal(seen + {e}, refused.value) && !refused.value.DispatchCycle?
  {
    after, refused := parents, None;
    if e.src == e.dst { return after, Some(DispatchSelfEdge(e.src)); }
    if e.dst in parents {
      if parents[e.dst] != e.src {
        var pair := SortedPair(parents[e.dst], e.src);
        return after, Some(DifferingDispatchParents(e.dst, pair.0, pair.1));
      }
    } else {
      after := after[e.dst := e.src];
    }
  }

  lemma RefusalMonotone(some: set<Edge>, all: set<Edge>, c: MergeConflict)
    requires some <= all && !c.DispatchCycle? && DispatchRefusal(some, c)
    ensures DispatchRefusal(all, c) && !Forest(all)
  {
  }

  /** Some list of exactly the given edges, as the hash set yields them. */
  method ListEdges(edges: set<Edge>) returns (list: seq<Edge>)
    ensures EdgeSet(list) == edges
  {
    list := [];
    var rest := edges;
    while rest != {}
      invariant rest <= edges && EdgeSet(list) == edges - rest
    {
      var e :| e in rest;
      assert EdgeSet(list + [e]) == EdgeSet(list) + {e};
      list := list + [e];
      rest := rest - {e};
    }
  }

  method ContractExecutionEdges(edges: set<Edge>, survivor: RunId, absorbed: RunId)
    returns (r: Result<set<Edge>, MergeConflict>)
    ensures r.Ok? <==> Forest(Image(edges, survivor, absorbed))
    ensures r.Ok? ==> r.value == Image(edges, survivor, absorbed)
    ensures r.Err? ==> DispatchRefusal(Image(edges, survivor, absorbed), r.error)
  {
    var contracted: set<Edge> := {};
    var parents: map<RunId, RunId> := map[];
    var rest := edges;
    while rest != {}
      invariant rest <= edges
      invariant contracted == Image(edges - rest, survivor, absorbed)
      invariant ParentTable(parents, contracted)
    {
      var e :| e in rest;
      var image := SubstituteEdge(e, survivor, absorbed);
      var refused;
      parents, refused := AdmitParent(image, parents, contracted);
      assert edges - (rest - {e}) == (edges - rest) + {e};
      assert contracted + {image} == Image(edges - (rest - {e}), survivor, absorbed);
      if refused.Some? {
        RefusalMonotone(contracted + {image}, Image(edges, survivor, absorbed), refused.value);
        return Err(refused.value);
      }
      contracted := contracted + {image};
      rest := rest - {e};
    }
    assert edges - {} == edges;
    var pairs := ListEdges(contracted);
    var cyclic, _ := GraphHasCycle(pairs);
    if cyclic { return Err(DispatchCycle); }
    return Ok(contracted);
  }

  method ContractDependencyEdges(edges: set<Edge>, survivor: RunId, absorbed: RunId)
    returns (r: Result<set<Edge>, MergeConflict>)
    ensures r.Ok? <==> Dag(Image(edges, survivor, absorbed))
    ensures r.Ok? ==> r.value == Image(edges, survivor, absorbed)
    ensures r.Err? ==> DependencyRefusal(Image(edges, survivor, absorbed), r.error)
  {
    var contracted: set<Edge> := {};
    var rest := edges;
    while rest != {}
      invariant rest <= edges
      invariant contracted == Image(edges - rest, survivor, absorbed) && NoSelfEdge(contracted)
    {
      var e :| e in rest;
      var image := SubstituteEdge(e, survivor, absorbed);
      assert image in Image(edges, survivor, absorbed);
      if image.src == image.dst { return Err(DependencySelfEdge(image.src)); }
      assert edges - (rest - {e}) == (edges - rest) + {e};
      contracted := contracted + {image};
      rest := rest - {e};
    }
    assert edges - {} == edges;
    var pairs := ListEdges(contracted);
    var cyclic, _ := GraphHasCycle(pairs);
    if cyclic { return Err(DependencyCycle); }
    return Ok(contracted);
  }

  datatype ContractedGraphs = ContractedGraphs(executionEdges: set<Edge>, dependencyEdges: set<Edge>)

  method PreflightMerge(model: DomainModel, survivor: RunId, absorbed: RunId)
    returns (r: Result<ContractedGraphs, MergeConflict>)
    ensures r.Ok? <==> MergeAccepted(model.State(), survivor, absorbed)
    ensures r.Ok? ==> r.value == ContractedGraphs(Image(model.executionEdges, survivor, absorbed),
                                                  Image(model.dependencyEdges, survivor, absorbed))
    ensures r.Err? ==> MergeRefusal(model.State(), survivor, absorbed, r.error)
  {
    if survivor !in model.taskRuns { return Err(MissingRun(survivor)); }
    if absorbed !in model.taskRuns { return Err(MissingRun(absorbed)); }
    if survivor == absorbed { return Err(SameRun(survivor)); }
    var s, a := model.taskRuns[survivor].key, model.taskRuns[absorbed].key;
    if KeyPriority(s) < KeyPriority(a) { return Err(LowerPrioritySurvivor(survivor, absorbed)); }
    if s.Controller? && a.Controller? { return Err(ControllerIdentityAlreadyBound(absorbed, survivor)); }
    var left := FindSingleNativeBinding(model, survivor);
    if left.Err? { return Err(left.error); }
    var right := FindSingleNativeBinding(model, absorbed);
    if right.Err? { return Err(right.error); }
    if left.value.Some? && right.value.Some? {
      if left.value != right.value { return Err(DifferingNativeSessions(survivor, absorbed)); }
      return Err(NativeSessionAlreadyBound(left.value.value, survivor, absorbed));
    }
    var executionEdges := ContractExecutionEdges(model.executionEdges, survivor, absorbed);
    if executionEdges.Err? { return Err(executionEdges.error); }
    var dependencyEdges := ContractDependencyEdges(model.dependencyEdges, survivor, absorbed);
    if dependencyEdges.Err? { return Err(dependencyEdges.error); }
    return Ok(ContractedGraphs(executionEdges.value, dependencyEdges.value));
  }

  /** The plans that the evidence may yield; hash order only selects among dispatch conflicts. */
  ghost predicate Planned(m: Model, ev: BindingEvidence, plan: BindingPlan) {
    match Decide(m, ev)
    case Settled(p) => plan == p
    case Propose(s, a) =>
      if MergeAccepted(m, s, a) then plan == Merge(s, a)
      else plan.Conflict? && MergeRefusal(m, s, a, plan.conflict)
  }

  method PlanBinding(model: DomainModel, ev: BindingEvidence) returns (plan: BindingPlan)
    ensures Planned(model.State(), ev, plan)
  {
    match Decide(model.State(), ev) {
      case Settled(p) => plan := p;
      case Propose(s, a) =>
        var preflight := PreflightMerge(model, s, a);
        plan := if preflight.Ok? then Merge(s, a) else Conflict(preflight.error);
    }
  }

  // ----- edge preflight

  method PreflightExecutionEdge(model: DomainModel, candidate: Edge) returns (refused: Option<MergeConflict>)
    ensures refused.None? <==> Forest(model.executionEdges + {candidate})
    ensures refused.Some? ==> DispatchRefusal(model.executionEdges + {candidate}, refused.value)
  {
    var all := model.executionEdges + {candidate};
    var list := ListEdges(model.executionEdges);
    list := list + [candidate];
    assert EdgeSet(list) == all;
    var parents: map<RunId, RunId> := map[];
    assert list[..0] == [];
    for i := 0 to |list|
      invariant ParentTable(parents, EdgeSet(list[..i]))
    {
      assert list[..i + 1] == list[..i] + [list[i]];
      assert EdgeSet(list[..i + 1]) == EdgeSet(list[..i]) + {list[i]};
      parents, refused := AdmitParent(list[i], parents, EdgeSet(list[..i]));
      if refused.Some? {
        RefusalMonotone(EdgeSet(list[..i + 1]), all, refused.value);
        return;
      }
    }
    assert list[..|list|] == list;
    var cyclic, _ := GraphHasCycle(list);
    refused := if cyclic then Some(DispatchCycle) else None;
  }

  method PreflightDependencyEdge(model: DomainModel, candidate: Edge) returns (refused: Option<MergeConflict>)
    ensures refused.None? <==> Dag(model.dependencyEdges + {candidate})
    ensures refused.Some? ==> DependencyRefusal(model.dependencyEdges + {candidate}, refused.value)
  {
    var all := model.dependencyEdges + {candidate};
    var list := ListEdges(model.dependencyEdges);
    list := list + [candidate];
    assert EdgeSet(list) == all;
    for i := 0 to |list|
      invariant forall e :: e in list[..i] ==> e.src != e.dst
    {
      assert list[i] in list && list[i] in all;
      if list[i].src == list[i].dst { return Some(DependencySelfEdge(list[i].src)); }
    }
    assert list[..|list|] == list;
    var cyclic, _ := GraphHasCycle(list);
    refused := if cyclic then Some(DependencyCycle) else None;
  }

  // ----- application

  function TouchedAt(t: TaskRun, at: int): TaskRun {
    t.Touched(Max(t.updatedAtMs.UnwrapOr(at), at))
  }

  function Persisted(t: TaskRun, session: Option<RunKey>, at: int): PersistTaskRun {
    PersistTaskRun(t, session, t.createdAtMs.UnwrapOr(at), t.updatedAtMs.UnwrapOr(at), t.finishedAtMs)
  }

  datatype Outcome = Outcome(model: Model, ops: seq<PersistOp>)

  /** Binding one resolved native key: the new model and its durable half, or the refusal. */
  function Bound(m: Model, run: RunId, key: RunKey, at: int, aliasRunId: RunId): Result<Outcome, MergeConflict> {
    if !key.Native? then Err(UnsupportedBindingKey)
    else if run !in m.taskRuns then Err(MissingRun(run))
    else if m.RunByKey(key).Some? then
      if m.RunByKey(key).value.runId == run then Ok(Outcome(m, []))
      else Err(KeyAlreadyBound(m.RunByKey(key).value.runId, run))
    else
      var t := m.taskRuns[run];
      match SingleNativeBinding(m, run)
      case Err(conflict) => Err(conflict)
      case Ok(bound) =>
        if bound.Some? && bound.value != key then Err(NativeSessionRebind(run))
        else match t.key
          case Controller(_) =>
            var touched := TouchedAt(t, at);
            Ok(Outcome(WithTaskRun(WithAlias(m, key, run), touched),
                       [UpsertTaskRun(Persisted(touched, Some(key), at))]))
          case Native(_, _) =>
            if t.key != key then Err(EvidenceMismatch(run))
            else
              var touched := TouchedAt(t, at);
              Ok(Outcome(WithTaskRun(m, touched), [UpsertTaskRun(Persisted(touched, Some(key), at))]))
          case _ =>
            var touched := TouchedAt(t.(key := key), at);
            var durable := Persisted(touched, Some(key), at);
            Ok(Outcome(WithAlias(WithTaskRun(m, touched), t.key, run),
                       if t.key.NativePath? then [PromoteTaskRunKey(durable, t.key, aliasRunId)]
                           else [UpsertTaskRun(durable)]))
  }

  method ApplyBind(model: DomainModel, run: RunId, key: RunKey, at: int, aliasRunId: RunId) returns (r: Applying)
    modifies model
    ensures var before := old(model.State());
            match Bound(before, run, key, at, aliasRunId)
            case Ok(outcome) => model.State() == outcome.model && r == Ok(outcome.ops)
            case Err(conflict) => model.State() == before && r == Err(conflict)
  {
    if !key.Native? { return Err(UnsupportedBindingKey); }
    if run !in model.taskRuns { return Err(MissingRun(run)); }
    var taskRun := model.taskRuns[run];
    var owner := model.State().RunByKey(key);
    if owner.Some? {
      if owner.value.runId == run { return Ok([]); }
      return Err(KeyAlreadyBound(owner.value.runId, run));
    }
    var bound := FindSingleNativeBinding(model, run);
    if bound.Err? { return Err(bound.error); }
    if bound.value.Some? && bound.value.value != key { return Err(NativeSessionRebind(run)); }
    var promotedFrom: Option<RunKey> := None;
    var persisted := taskRun;
    match taskRun.key {
      case Controller(_) =>
        model.InsertTaskRunAlias(key, run);
      case Native(_, _) =>
        if taskRun.key != key { return Err(EvidenceMismatch(run)); }
      case _ =>
        promotedFrom := Some(taskRun.key);
        persisted := taskRun.(key := key);
    }
    persisted := TouchedAt(persisted, at);
    model.InsertTaskRun(persisted);
    if promotedFrom.Some? { model.InsertTaskRunAlias(promotedFrom.value, run); }
    var durable := Persisted(persisted, Some(key), at);
    if promotedFrom.Some? && promotedFrom.value.NativePath? {
      r := Ok([PromoteTaskRunKey(durable, promotedFrom.value, aliasRunId)]);
    } else {
      r := Ok([UpsertTaskRun(durable)]);
    }
  }

  /** The keys that must resolve to the survivor: everything the absorbed run owned, and its own key. */
  function AbsorbedKeys(m: Model, absorbed: RunId): set<RunKey> {
    (set k | k in m.keyOwner && m.keyOwner[k] == absorbed)
    + (if absorbed in m.taskRuns then {m.taskRuns[absorbed].key} else {})
  }

  function WithControllerEvidence(m: Model, survivor: RunId, absorbed: RunId, at: int): Model {
    if absorbed in m.taskRuns && m.taskRuns[absorbed].hasControllerTaskStateEvent && survivor in m.taskRuns then
      WithTaskRun(m, TouchedAt(m.taskRuns[survivor].(hasControllerTaskStateEvent := true), at))
    else m
  }

  /** The merge proper, after the survivor has inherited the absorbed run's Controller evidence. */
  function MergedFrom(m: Model, survivor: RunId, absorbed: RunId, graphs: ContractedGraphs): Model {
    Model(
      Drop(m.taskRuns, absorbed),
      OwnersWithAliases(m.keyOwner, AbsorbedKeys(m, absorbed), survivor),
      Drop(MergedHistory(m.history, survivor, absorbed), absorbed),
      Drop(MergedTotals(m.rateTotals, survivor, absorbed), absorbed),
      Drop(Drop(m.rateCursors, survivor), absorbed),
      MergedTelemetry(m.telemetry, survivor, absorbed),
      MergedKinds(m.runKinds, survivor, absorbed),
      ReassignedExecutions(m.executions, survivor, absorbed),
      ReassignedNodes(m.agentNodes, survivor, absorbed),
      graphs.executionEdges,
      graphs.dependencyEdges,
      Redirected(m.publications, survivor, absorbed),
      m.paneStatuses,
      m.rateSaturations + if TotalsSaturate(m.rateTotals, survivor, absorbed) then 1 else 0)
  }

  function Merged(m: Model, survivor: RunId, absorbed: RunId, graphs: ContractedGraphs, at: int): Model {
    MergedFrom(WithControllerEvidence(m, survivor, absorbed, at), survivor, absorbed, graphs)
  }

  method CollectAliases(model: DomainModel, absorbed: RunId) returns (keys: set<RunKey>)
    ensures keys == AbsorbedKeys(model.State(), absorbed)
  {
    keys := {};
    var rest := model.keyOwner.Keys;
    while rest != {}
      invariant rest <= model.keyOwner.Keys
      invariant keys == set k | k in model.keyOwner && k !in rest && model.keyOwner[k] == absorbed
    {
      var k :| k in rest;
      if model.keyOwner[k] == absorbed { keys := keys + {k}; }
      rest := rest - {k};
    }
    if absorbed in model.taskRuns { keys := keys + {model.taskRuns[absorbed].key}; }
  }

  method MarkSurvivor(model: DomainModel, survivor: RunId, absorbed: RunId, at: int)
    modifies model
    ensures model.State() == WithControllerEvidence(old(model.State()), survivor, absorbed, at)
  {
    if absorbed in model.taskRuns && model.taskRuns[absorbed].hasControllerTaskStateEvent
        && survivor in model.taskRuns {
      model.InsertTaskRun(TouchedAt(model.taskRuns[survivor].(hasControllerTaskStateEvent := true), at));
    }
  }

  /** Folds the absorbed run's per-run state into the survivor's and removes its record. */
  method FoldRunState(model: DomainModel, survivor: RunId, absorbed: RunId)
    modifies model`telemetry, model`runKinds, model`history, model`publications, model`rateTotals,
        model`rateSaturations, model`rateCursors, model`taskRuns
    ensures model.telemetry == MergedTelemetry(old(model.telemetry), survivor, absorbed)
    ensures model.runKinds == MergedKinds(old(model.runKinds), survivor, absorbed)
    ensures model.history == Drop(MergedHistory(old(model.history), survivor, absorbed), absorbed)
    ensures model.publications == Redirected(old(model.publications), survivor, absorbed)
    ensures model.rateTotals == Drop(MergedTotals(old(model.rateTotals), survivor, absorbed), absorbed)
    ensures model.rateSaturations
            == old(model.rateSaturations) + if TotalsSaturate(old(model.rateTotals), survivor, absorbed) then 1 else 0
    ensures model.rateCursors == Drop(Drop(old(model.rateCursors), survivor), absorbed)
    ensures model.taskRuns == Drop(old(model.taskRuns), absorbed)
  {
    model.FoldTelemetry(survivor, absorbed);
    model.FoldRunKind(survivor, absorbed);
    model.FoldHistory(survivor, absorbed);
    model.FoldRateTotals(survivor, absorbed);
    model.rateCursors := model.rateCursors - {survivor};
    model.RemoveTaskRunRecord(absorbed);
  }

  /** Hands the absorbed run's rows to the survivor and installs the contracted edge sets. */
  method MoveRows(model: DomainModel, survivor: RunId, absorbed: RunId, graphs: ContractedGraphs)
    modifies model`executions, model`agentNodes, model`executionEdges, model`dependencyEdges
    ensures model.executions == ReassignedExecutions(old(model.executions), survivor, absorbed)
    ensures model.agentNodes == ReassignedNodes(old(model.agentNodes), survivor, absorbed)
    ensures model.executionEdges == graphs.executionEdges && model.dependencyEdges == graphs.dependencyEdges
  {
    model.ReassignExecutions(survivor, absorbed);
    model.ReassignAgentNodes(survivor, absorbed);
    model.executionEdges := graphs.executionEdges;
    model.dependencyEdges := graphs.dependencyEdges;
  }

  method MergeMarked(model: DomainModel, survivor: RunId, absorbed: RunId, graphs: ContractedGraphs)
    modifies model
    ensures model.State() == MergedFrom(old(model.State()), survivor, absorbed, graphs)
  {
    var aliases := CollectAliases(model, absorbed);
    FoldRunState(model, survivor, absorbed);
    MoveRows(model, survivor, absorbed, graphs);
    model.InsertAliases(aliases, survivor);
  }

  method MergeInMemory(model: DomainModel, survivor: RunId, absorbed: RunId, graphs: ContractedGraphs, at: int)
    modifies model
    ensures model.State() == Merged(old(model.State()), survivor, absorbed, graphs, at)
  {
    MarkSurvivor(model, survivor, absorbed, at);
    MergeMarked(model, survivor, absorbed, graphs);
  }

  function ImageGraphs(m: Model, survivor: RunId, absorbed: RunId): ContractedGraphs {
    ContractedGraphs(Image(m.executionEdges, survivor, absorbed), Image(m.dependencyEdges, survivor, absorbed))
  }

  /** The model after an accepted merge, its survivor's bookkeeping advanced. */
  function MergeApplied(m: Model, survivor: RunId, absorbed: RunId, at: int): Model {
    var merged := Merged(m, survivor, absorbed, ImageGraphs(m, survivor, absorbed), at);
    if survivor in merged.taskRuns then WithTaskRun(merged, TouchedAt(merged.taskRuns[survivor], at)) else merged
  }

  /** What applying a plan may do: the new state and the answer. */
  ghost predicate Applied(m: Model, plan: BindingPlan, at: int, aliasRunId: RunId, after: Model, r: Applying) {
    match plan
    case NoChange => after == m && r == Ok([])
    case Conflict(conflict) => after == m && r == Err(conflict)
    case Bind(run, key) =>
      (match Bound(m, run, key, at, aliasRunId)
       case Ok(outcome) => after == outcome.model && r == Ok(outcome.ops)
       case Err(conflict) => after == m && r == Err(conflict))
    case Merge(s, a) =>
      if MergeAccepted(m, s, a) then
        && after == MergeApplied(m, s, a, at) && s in after.taskRuns && SingleNativeBinding(after, s).Ok?
        && r == Ok([MergeTaskRuns(s, a),
                    UpsertTaskRun(Persisted(after.taskRuns[s], SingleNativeBinding(after, s).value, at))])
      else after == m && r.Err? && MergeRefusal(m, s, a, r.error)
  }

  /** Re-inserting a run's record under the key it has only makes that key resolve to the run. */
  lemma RefreshedOwners(taskRuns: map<RunId, TaskRun>, owners: map<RunKey, RunId>, t: TaskRun)
    requires t.runId in taskRuns && taskRuns[t.runId].key == t.key
    ensures OwnersWith(taskRuns, owners, t) == owners[t.key := t.runId]
  {
  }

  ghost predicate Mergeable(m: Model, survivor: RunId, absorbed: RunId) {
    m.WellKeyed() && survivor in m.taskRuns && absorbed in m.taskRuns && survivor != absorbed
  }

  lemma MarkedRecord(m: Model, survivor: RunId, absorbed: RunId, at: int)
    requires Mergeable(m, survivor, absorbed)
    ensures var marked := WithControllerEvidence(m, survivor, absorbed, at);
            && survivor in marked.taskRuns && marked.taskRuns == m.taskRuns[survivor := marked.taskRuns[survivor]]
            && marked.taskRuns[survivor].key == m.taskRuns[survivor].key && marked.taskRuns[survivor].runId == survivor
  {
  }

  lemma MarkedOwners(m: Model, survivor: RunId, absorbed: RunId, at: int)
    requires Mergeable(m, survivor, absorbed)
    ensures var marked := WithControllerEvidence(m, survivor, absorbed, at);
            marked.keyOwner == m.keyOwner || marked.keyOwner == m.keyOwner[m.taskRuns[survivor].key := survivor]
  {
  }

  ghost predicate SurvivorRecord(m: Model, survivor: RunId, absorbed: RunId, after: map<RunId, TaskRun>) {
    && survivor in m.taskRuns
    && survivor in after && after == Drop(m.taskRuns, absorbed)[survivor := after[survivor]]
    && after[survivor].key == m.taskRuns[survivor].key && after[survivor].runId == survivor
  }

  lemma DroppedRecord(m: Model, marked: map<RunId, TaskRun>, survivor: RunId, absorbed: RunId)
    requires Mergeable(m, survivor, absorbed)
    requires survivor in marked && marked == m.taskRuns[survivor := marked[survivor]]
    requires marked[survivor].key == m.taskRuns[survivor].key && marked[survivor].runId == survivor
    ensures SurvivorRecord(m, survivor, absorbed, Drop(marked, absorbed))
  {
  }

  /** The survivor keeps its place and its key, and no other record but the absorbed one is touched. */
  lemma MergedRecords(m: Model, survivor: RunId, absorbed: RunId, graphs: ContractedGraphs, at: int)
    requires Mergeable(m, survivor, absorbed)
    ensures SurvivorRecord(m, survivor, absorbed, Merged(m, survivor, absorbed, graphs, at).taskRuns)
  {
    MarkedRecord(m, survivor, absorbed, at);
    DroppedRecord(m, WithControllerEvidence(m, survivor, absorbed, at).taskRuns, survivor, absorbed);
  }

  lemma TouchedRecord(m: Model, run: RunId, at: int)
    requires run in m.taskRuns && m.taskRuns[run].runId == run
    ensures var after := WithTaskRun(m, TouchedAt(m.taskRuns[run], at));
            && after.taskRuns == m.taskRuns[run := TouchedAt(m.taskRuns[run], at)]
            && after.keyOwner == m.keyOwner[m.taskRuns[run].key := run]
  {
    RefreshedOwners(m.taskRuns, m.keyOwner, TouchedAt(m.taskRuns[run], at));
  }

  lemma TouchedSurvivor(m: Model, merged: Model, survivor: RunId, absorbed: RunId, at: int)
    requires SurvivorRecord(m, survivor, absorbed, merged.taskRuns)
    ensures SurvivorRecord(m, survivor, absorbed,
                           WithTaskRun(merged, TouchedAt(merged.taskRuns[survivor], at)).taskRuns)
  {
    TouchedRecord(merged, survivor, at);
  }

  lemma MergeAppliedRecords(m: Model, survivor: RunId, absorbed: RunId, at: int)
    requires Mergeable(m, survivor, absorbed)
    ensures SurvivorRecord(m, survivor, absorbed, MergeApplied(m, survivor, absorbed, at).taskRuns)
  {
    MergedRecords(m, survivor, absorbed, ImageGraphs(m, survivor, absorbed), at);
    TouchedSurvivor(m, Merged(m, survivor, absorbed, ImageGraphs(m, survivor, absorbed), at), survivor, absorbed, at);
  }

  lemma MovedOwners(m: Model, marked: Model, survivor: RunId, absorbed: RunId)
    requires Mergeable(m, survivor, absorbed)
    requires absorbed in marked.taskRuns && marked.taskRuns[absorbed] == m.taskRuns[absorbed]
    requires marked.keyOwner == m.keyOwner || marked.keyOwner == m.keyOwner[m.taskRuns[survivor].key := survivor]
    ensures OwnersWithAliases(marked.keyOwner, AbsorbedKeys(marked, absorbed),
                              survivor)[m.taskRuns[survivor].key := survivor]
         == OwnersWithAliases(m.keyOwner, AbsorbedKeys(m, absorbed), survivor)[m.taskRuns[survivor].key := survivor]
  {
  }

  /** The owners after a merge: absorbed keys move to the survivor, whose own key is refreshed. */
  lemma MergeAppliedOwners(m: Model, survivor: RunId, absorbed: RunId, at: int)
    requires Mergeable(m, survivor, absorbed)
    ensures MergeApplied(m, survivor, absorbed, at).keyOwner
         == OwnersWithAliases(m.keyOwner, AbsorbedKeys(m, absorbed), survivor)[m.taskRuns[survivor].key := survivor]
  {
    var graphs := ImageGraphs(m, survivor, absorbed);
    MergedRecords(m, survivor, absorbed, graphs, at);
    TouchedRecord(Merged(m, survivor, absorbed, graphs, at), survivor, at);
    MarkedRecord(m, survivor, absorbed, at);
    MarkedOwners(m, survivor, absorbed, at);
    MovedOwners(m, WithControllerEvidence(m, survivor, absorbed, at), survivor, absorbed);
  }

  lemma BindingsFromPair(m: Model, after: Model, survivor: RunId, absorbed: RunId)
    requires Mergeable(m, survivor, absorbed)
    requires survivor in after.taskRuns && after.taskRuns[survivor].key == m.taskRuns[survivor].key
    requires after.keyOwner
             == OwnersWithAliases(m.keyOwner, AbsorbedKeys(m, absorbed), survivor)[m.taskRuns[survivor].key := survivor]
    ensures NativeBindings(after, survivor) <= NativeBindings(m, survivor) + NativeBindings(m, absorbed)
  {
  }

  lemma SurvivorBinding(m: Model, after: Model, survivor: RunId, absorbed: RunId)
    requires m.WellKeyed() && IdentityRefusal(m, survivor, absorbed).None?
    requires survivor in after.taskRuns && after.taskRuns[survivor].key == m.taskRuns[survivor].key
    requires after.keyOwner
             == OwnersWithAliases(m.keyOwner, AbsorbedKeys(m, absorbed), survivor)[m.taskRuns[survivor].key := survivor]
    ensures SingleNativeBinding(after, survivor).Ok?
  {
    BindingsFromPair(m, after, survivor, absorbed);
    assert NativeBindings(m, survivor) == {} || NativeBindings(m, absorbed) == {};
  }

  /** Whatever the model, an accepted merge leaves the survivor with at most one native session. */
  lemma MergedSingleBinding(m: Model, survivor: RunId, absorbed: RunId, at: int)
    requires m.WellKeyed() && IdentityRefusal(m, survivor, absorbed).None?
    ensures SingleNativeBinding(MergeApplied(m, survivor, absorbed, at), survivor).Ok?
  {
    MergeAppliedRecords(m, survivor, absorbed, at);
    MergeAppliedOwners(m, survivor, absorbed, at);
    SurvivorBinding(m, MergeApplied(m, survivor, absorbed, at), survivor, absorbed);
  }

  /** The fallible lookups that follow the in-memory merge. */
  method FinishMerge(model: DomainModel, survivor: RunId, absorbed: RunId, at: int) returns (r: Applying)
    modifies model
    ensures survivor !in old(model.taskRuns) ==> model.State() == old(model.State()) && r == Err(MissingRun(survivor))
    ensures survivor in old(model.taskRuns) ==>
      var touched := TouchedAt(old(model.taskRuns)[survivor], at);
      && model.State() == WithTaskRun(old(model.State()), touched)
      && r == match SingleNativeBinding(model.State(), survivor)
              case Err(conflict) => Err(conflict)
              case Ok(session) => Ok([MergeTaskRuns(survivor, absorbed),
                                      UpsertTaskRun(Persisted(touched, session, at))])
  {
    if survivor !in model.taskRuns { return Err(MissingRun(survivor)); }
    var taskRun := TouchedAt(model.taskRuns[survivor], at);
    model.InsertTaskRun(taskRun);
    var session := FindSingleNativeBinding(model, survivor);
    if session.Err? { return Err(session.error); }
    return Ok([MergeTaskRuns(survivor, absorbed), UpsertTaskRun(Persisted(taskRun, session.value, at))]);
  }

  method ApplyMerge(model: DomainModel, survivor: RunId, absorbed: RunId, at: int) returns (r: Applying)
    requires model.State().WellKeyed()
    modifies model
    ensures Applied(old(model.State()), Merge(survivor, absorbed), at, 0, model.State(), r)
    ensures r.Ok? <==> old(MergeAccepted(model.State(), survivor, absorbed))
  {
    var contracted := PreflightMerge(model, survivor, absorbed);
    if contracted.Err? { return Err(contracted.error); }
    MergedSingleBinding(model.State(), survivor, absorbed, at);
    MergedRecords(model.State(), survivor, absorbed, contracted.value, at);
    MergeInMemory(model, survivor, absorbed, contracted.value, at);
    r := FinishMerge(model, survivor, absorbed, at);
  }

  method ApplyBindingPlanAt(model: DomainModel, plan: BindingPlan, at: int, aliasRunId: RunId) returns (r: Applying)
    requires model.State().WellKeyed()
    modifies model
    ensures Applied(old(model.State()), plan, at, aliasRunId, model.State(), r)
    ensures r.Err? ==> model.State() == old(model.State())
  {
    match plan {
      case NoChange => r := Ok([]);
      case Conflict(conflict) => r := Err(conflict);
      case Bind(run, key) => r := ApplyBind(model, run, key, at, aliasRunId);
      case Merge(survivor, absorbed) => r := ApplyMerge(model, survivor, absorbed, at);
    }
  }
}
