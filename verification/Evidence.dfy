/** What binding evidence achieves: when a plan binds, merges or rests, and what holds once it is applied. */
module Evidence {
  import opened Types
  import opened Contraction
  import opened Entities
  import opened Identity
  import opened IdentityProofs

  // ----- what the evidence is about

  predicate IsProvisional(m: Model, run: RunId) { run in m.taskRuns && m.taskRuns[run].key.Provisional? }

  predicate IsController(m: Model, run: RunId) { run in m.taskRuns && m.taskRuns[run].key.Controller? }

  /** The run the evidence names is known, and of the kind that the evidence may speak about. */
  ghost predicate Addresses(m: Model, ev: BindingEvidence) {
    && ev.run in m.taskRuns
    && var own := m.taskRuns[ev.run].key;
       match ev
       case NativeSession(_, _, _) => true
       case HeuristicNativeSession(_, sid) => own.Provisional? || own == Native(Codex, sid)
       case NativePathResolved(_, provider, _) => own.NativePath? && own.pathProvider == provider
       case ControllerNativeSession(_, _, _) => own.Controller?
       case ControllerTerminal(_, _) => own.Controller?
  }

  ghost predicate LiveIn(m: Model, i: RowId, terminalId: string) {
    i in m.executions && m.executions[i].terminalId == terminalId && !m.executions[i].state.Ended?
  }

  /** Nothing is left to do: the key already resolves to the run, or no other run is live in the terminal. */
  ghost predicate InEffect(m: Model, ev: BindingEvidence) {
    match EvidenceKey(ev)
    case Some(key) => key in m.keyOwner && m.keyOwner[key] == ev.run
    case None => forall i :: LiveIn(m, i, ev.terminalId) ==> m.executions[i].taskRunId == ev.run
  }

  /** Some execution is live in the terminal, and all that are belong to the run. */
  ghost predicate OnlyLive(m: Model, terminalId: string, run: RunId) {
    && (exists i :: LiveIn(m, i, terminalId))
    && (forall i :: LiveIn(m, i, terminalId) ==> m.executions[i].taskRunId == run)
  }

  /** The key is free, and the run has no session yet that would exclude it. */
  ghost predicate CallsForBind(m: Model, ev: BindingEvidence) {
    && EvidenceKey(ev).Some? && EvidenceKey(ev).value !in m.keyOwner
    && match ev
       case NativeSession(run, _, _) => IsProvisional(m, run)
       case HeuristicNativeSession(run, _) => true
       case NativePathResolved(_, _, _) => true
       case ControllerNativeSession(run, _, _) => forall k :: k in m.keyOwner && m.keyOwner[k] == run ==> !k.Native?
       case ControllerTerminal(_, _) => false
  }

  /** Another run has the session, or lives in the terminal, and the evidence is strong enough to join the two. */
  ghost predicate CallsForMerge(m: Model, ev: BindingEvidence, survivor: RunId, absorbed: RunId) {
    match ev
    case NativeSession(run, provider, sid) =>
      var key := Native(provider, sid);
      && IsProvisional(m, run) && key in m.keyOwner && m.keyOwner[key] == survivor
      && !IsController(m, survivor) && absorbed == run
    case HeuristicNativeSession(_, _) => false
    case NativePathResolved(run, provider, sid) =>
      var key := Native(provider, sid);
      key in m.keyOwner && m.keyOwner[key] == survivor && absorbed == run
    case ControllerNativeSession(run, provider, sid) =>
      var key := Native(provider, sid);
      && survivor == run && key in m.keyOwner && m.keyOwner[key] == absorbed
      && absorbed != run && !IsController(m, absorbed)
    case ControllerTerminal(run, terminalId) =>
      && survivor == run && absorbed != run && absorbed in m.taskRuns && !IsController(m, absorbed)
      && OnlyLive(m, terminalId, absorbed)
  }

  // ----- when a plan does what

  lemma LiveRunsAre(m: Model, terminalId: string)
    ensures forall i :: LiveIn(m, i, terminalId) ==> m.executions[i].taskRunId in LiveRuns(m, terminalId)
    ensures forall r :: r in LiveRuns(m, terminalId)
              ==> exists i :: LiveIn(m, i, terminalId) && m.executions[i].taskRunId == r
  {
    forall r | r in LiveRuns(m, terminalId)
      ensures exists i :: LiveIn(m, i, terminalId) && m.executions[i].taskRunId == r
    {
      var i :| i in m.executions && m.executions[i].terminalId == terminalId && !m.executions[i].state.IsTerminal()
               && m.executions[i].taskRunId == r;
      assert LiveIn(m, i, terminalId);
    }
  }

  /** No native key belongs to a run that is neither Controller-keyed nor keyed by it. */
  lemma OwnerHoldsSession(m: Model, key: RunKey)
    requires IdentityInvariant(m) && key.Native? && key in m.keyOwner
    ensures m.keyOwner[key] in m.taskRuns && m.RunByKey(key) == Some(m.taskRuns[m.keyOwner[key]])
    ensures m.taskRuns[m.keyOwner[key]].runId == m.keyOwner[key]
    ensures HoldsSession(m.taskRuns[m.keyOwner[key]].key, key)
  {
  }

  /** What the decision is, in terms of the three situations. */
  ghost predicate Classified(m: Model, ev: BindingEvidence, d: Decision) {
    && (d == Settled(NoChange) <==> Addresses(m, ev) && InEffect(m, ev))
    && (d.Settled? && d.plan.Bind? <==> Addresses(m, ev) && CallsForBind(m, ev))
    && (d.Settled? && d.plan.Bind? ==> d.plan == Bind(ev.run, EvidenceKey(ev).value))
    && (d.Settled? ==> !d.plan.Merge?)
    && (forall s, a :: d == Propose(s, a) <==> Addresses(m, ev) && CallsForMerge(m, ev, s, a))
  }

  lemma ClassifyNativeSession(m: Model, ev: BindingEvidence)
    requires IdentityInvariant(m) && ev.NativeSession?
    ensures Classified(m, ev, Decide(m, ev))
  {
    var key := Native(ev.provider, ev.sid);
    if key in m.keyOwner { OwnerHoldsSession(m, key); }
  }

  lemma ClassifyHeuristic(m: Model, ev: BindingEvidence)
    requires IdentityInvariant(m) && ev.HeuristicNativeSession?
    ensures Classified(m, ev, Decide(m, ev))
  {
    var key := Native(Codex, ev.sid);
    if key in m.keyOwner { OwnerHoldsSession(m, key); }
  }

  lemma ClassifyPath(m: Model, ev: BindingEvidence)
    requires IdentityInvariant(m) && ev.NativePathResolved?
    ensures Classified(m, ev, Decide(m, ev))
  {
    var key := Native(ev.provider, ev.sid);
    if key in m.keyOwner { OwnerHoldsSession(m, key); }
  }

  lemma SessionOfController(m: Model, run: RunId)
    requires IdentityInvariant(m) && run in m.taskRuns && m.taskRuns[run].key.Controller?
    ensures SingleNativeBinding(m, run).Ok?
    ensures SingleNativeBinding(m, run).value.None?
            <==> forall k :: k in m.keyOwner && m.keyOwner[k] == run ==> !k.Native?
    ensures SingleNativeBinding(m, run).value.Some?
            ==> SingleNativeBinding(m, run).value.value in m.keyOwner
                && m.keyOwner[SingleNativeBinding(m, run).value.value] == run
  {
    SingleSession(m, run);
    assert forall k :: k in NativeBindings(m, run) <==> k in m.keyOwner && m.keyOwner[k] == run && k.Native?;
  }

  lemma ClassifyControllerNative(m: Model, ev: BindingEvidence)
    requires IdentityInvariant(m) && ev.ControllerNativeSession?
    ensures Classified(m, ev, Decide(m, ev))
  {
    var key := Native(ev.provider, ev.sid);
    if key in m.keyOwner { OwnerHoldsSession(m, key); }
    if Addresses(m, ev) { SessionOfController(m, ev.run); }
  }

  lemma NoneLive(m: Model, terminalId: string)
    ensures LiveRuns(m, terminalId) == {} <==> forall i :: !LiveIn(m, i, terminalId)
  {
    LiveRunsAre(m, terminalId);
    if i :| LiveIn(m, i, terminalId) { assert m.executions[i].taskRunId in LiveRuns(m, terminalId); }
  }

  lemma OneLive(m: Model, terminalId: string, run: RunId)
    ensures LiveRuns(m, terminalId) == {run} <==> OnlyLive(m, terminalId, run)
  {
    LiveRunsAre(m, terminalId);
    NoneLive(m, terminalId);
    if OnlyLive(m, terminalId, run) {
      assert forall r :: r in LiveRuns(m, terminalId) ==> r == run;
    }
  }

  lemma SortedRuns(s: set<RunId>, r: RunId)
    ensures Sorted(s) == [] <==> s == {}
    ensures Sorted(s) == [r] <==> s == {r}
    ensures |Sorted(s)| == 1 ==> s == {Sorted(s)[0]}
  {
    if |Sorted(s)| == 1 {
      forall x | x in s ensures x == Sorted(s)[0] { assert x in Sorted(s); }
      assert Sorted(s)[0] in Sorted(s);
    }
    if s == {r} { assert |s| == 1; }
  }

  lemma ClassifyLive(m: Model, terminalId: string, run: RunId)
    ensures var live := Sorted(LiveRuns(m, terminalId));
            && (live == [] || live == [run]
                <==> forall i :: LiveIn(m, i, terminalId) ==> m.executions[i].taskRunId == run)
            && (|live| == 1 ==> OnlyLive(m, terminalId, live[0]))
            && (|live| != 1 ==> forall r: RunId :: !OnlyLive(m, terminalId, r))
  {
    var runs := LiveRuns(m, terminalId);
    NoneLive(m, terminalId);
    OneLive(m, terminalId, run);
    SortedRuns(runs, run);
    if |Sorted(runs)| == 1 { OneLive(m, terminalId, Sorted(runs)[0]); }
    forall r: RunId | |Sorted(runs)| != 1 ensures !OnlyLive(m, terminalId, r) {
      OneLive(m, terminalId, r);
      SortedRuns(runs, r);
    }
  }

  lemma OneOnly(m: Model, terminalId: string, a: RunId, b: RunId)
    requires OnlyLive(m, terminalId, a) && OnlyLive(m, terminalId, b)
    ensures a == b
  {
  }

  /** What the decision on terminal evidence is, given the runs live in the terminal. */
  lemma DecidedByLiveRuns(m: Model, ev: BindingEvidence, live: seq<RunId>)
    requires ev.ControllerTerminal? && live == Sorted(LiveRuns(m, ev.terminalId))
    ensures Decide(m, ev) == Settled(NoChange) <==> IsController(m, ev.run) && (live == [] || live == [ev.run])
    ensures Decide(m, ev).Settled? ==> !Decide(m, ev).plan.Bind? && !Decide(m, ev).plan.Merge?
    ensures Decide(m, ev).Propose?
            <==> && IsController(m, ev.run) && |live| == 1 && live[0] != ev.run && live[0] in m.taskRuns
                 && !IsController(m, live[0])
    ensures Decide(m, ev).Propose? ==> Decide(m, ev) == Propose(ev.run, live[0])
  {
    if |live| == 1 { assert live == [live[0]]; }
  }

  /** Terminal evidence calls for a merge exactly when one other run, not Controller-keyed, is live there. */
  lemma CalledByLiveRuns(m: Model, ev: BindingEvidence, live: seq<RunId>, s: RunId, a: RunId)
    requires ev.ControllerTerminal? && live == Sorted(LiveRuns(m, ev.terminalId))
    ensures CallsForMerge(m, ev, s, a)
            <==> && s == ev.run && |live| == 1 && live[0] == a && a != ev.run && a in m.taskRuns && !IsController(m, a)
  {
    ClassifyLive(m, ev.terminalId, ev.run);
    if |live| == 1 && OnlyLive(m, ev.terminalId, a) { OneOnly(m, ev.terminalId, a, live[0]); }
  }

  lemma TerminalProposal(m: Model, ev: BindingEvidence, s: RunId, a: RunId)
    requires ev.ControllerTerminal?
    ensures Decide(m, ev) == Propose(s, a) <==> Addresses(m, ev) && CallsForMerge(m, ev, s, a)
  {
    DecidedByLiveRuns(m, ev, Sorted(LiveRuns(m, ev.terminalId)));
    CalledByLiveRuns(m, ev, Sorted(LiveRuns(m, ev.terminalId)), s, a);
  }

  lemma TerminalRests(m: Model, ev: BindingEvidence)
    requires ev.ControllerTerminal?
    ensures Decide(m, ev) == Settled(NoChange) <==> Addresses(m, ev) && InEffect(m, ev)
    ensures Decide(m, ev).Settled? ==> !Decide(m, ev).plan.Bind? && !Decide(m, ev).plan.Merge?
  {
    DecidedByLiveRuns(m, ev, Sorted(LiveRuns(m, ev.terminalId)));
    ClassifyLive(m, ev.terminalId, ev.run);
  }

  lemma ClassifyTerminal(m: Model, ev: BindingEvidence)
    requires ev.ControllerTerminal?
    ensures Classified(m, ev, Decide(m, ev))
  {
    var d := Decide(m, ev);
    TerminalRests(m, ev);
    assert !CallsForBind(m, ev);
    forall s, a ensures d == Propose(s, a) <==> Addresses(m, ev) && CallsForMerge(m, ev, s, a) {
      TerminalProposal(m, ev, s, a);
    }
  }

  /** Every decision rests, binds or proposes a merge in exactly the situation that calls for it. */
  lemma DecisionIsClassified(m: Model, ev: BindingEvidence)
    requires IdentityInvariant(m)
    ensures Classified(m, ev, Decide(m, ev))
  {
    match ev
    case NativeSession(_, _, _) => ClassifyNativeSession(m, ev);
    case HeuristicNativeSession(_, _) => ClassifyHeuristic(m, ev);
    case NativePathResolved(_, _, _) => ClassifyPath(m, ev);
    case ControllerNativeSession(_, _, _) => ClassifyControllerNative(m, ev);
    case ControllerTerminal(_, _) => ClassifyTerminal(m, ev);
  }

  /**
   * A plan rests exactly when the evidence is in effect already, binds exactly when its key is free for the run, and
   * merges exactly when another run has the session or the terminal and the two may be joined. All else is a conflict.
   */
  lemma PlansExactly(m: Model, ev: BindingEvidence, plan: BindingPlan)
    requires IdentityInvariant(m) && Planned(m, ev, plan)
    ensures plan == NoChange <==> Addresses(m, ev) && InEffect(m, ev)
    ensures forall run, key :: plan == Bind(run, key)
              <==> Addresses(m, ev) && CallsForBind(m, ev) && run == ev.run && EvidenceKey(ev) == Some(key)
    ensures forall s, a :: plan == Merge(s, a)
              <==> Addresses(m, ev) && CallsForMerge(m, ev, s, a) && MergeAccepted(m, s, a)
  {
    DecisionIsClassified(m, ev);
    forall s, a ensures plan == Merge(s, a)
      <==> Addresses(m, ev) && CallsForMerge(m, ev, s, a) && MergeAccepted(m, s, a)
    {
      assert Decide(m, ev) == Propose(s, a) <==> Addresses(m, ev) && CallsForMerge(m, ev, s, a);
    }
  }

  // ----- the evidence takes effect

  /** After the plan: the session key and the run's former key resolve to one run; the terminal is the run's alone. */
  ghost predicate Achieved(m: Model, ev: BindingEvidence, after: Model) {
    && ev.run in m.taskRuns
    && match EvidenceKey(ev)
       case Some(key) =>
         && key in after.keyOwner && m.taskRuns[ev.run].key in after.keyOwner
         && after.keyOwner[key] == after.keyOwner[m.taskRuns[ev.run].key] && after.keyOwner[key] in after.taskRuns
       case None =>
         && ev.run in after.taskRuns
         && forall i :: LiveIn(after, i, ev.terminalId) ==> after.executions[i].taskRunId == ev.run
  }

  lemma RestAchieves(m: Model, ev: BindingEvidence)
    requires IdentityInvariant(m) && Addresses(m, ev) && InEffect(m, ev)
    ensures Achieved(m, ev, m)
  {
  }

  lemma BindAchieves(m: Model, ev: BindingEvidence, key: RunKey, after: Model)
    requires IdentityInvariant(m) && EvidenceKey(ev) == Some(key) && BindTables(m, ev.run, key, after)
    ensures Achieved(m, ev, after)
  {
  }

  lemma MergeAchieves(m: Model, ev: BindingEvidence, survivor: RunId, absorbed: RunId, after: Model)
    requires IdentityInvariant(m) && Addresses(m, ev) && CallsForMerge(m, ev, survivor, absorbed)
    requires survivor != absorbed && SurvivorRecord(m, survivor, absorbed, after.taskRuns)
    requires after.keyOwner == map k | k in m.keyOwner :: Substitute(m.keyOwner[k], survivor, absorbed)
    requires after.executions == ReassignedExecutions(m.executions, survivor, absorbed)
    ensures Achieved(m, ev, after)
  {
    if ev.ControllerTerminal? {
      forall i | LiveIn(after, i, ev.terminalId) ensures after.executions[i].taskRunId == ev.run {
        assert LiveIn(m, i, ev.terminalId);
      }
    }
  }

  /**
   * Evidence takes effect: whenever its plan is no conflict, applying the plan succeeds, and afterwards the session
   * key and the key that the run had before resolve to one run, or no other run is live in the terminal.
   */
  lemma EvidenceTakesEffect(m: Model, ev: BindingEvidence, plan: BindingPlan, at: int, aliasRunId: RunId, after: Model,
                            r: Applying)
    requires IdentityInvariant(m) && Planned(m, ev, plan) && Applied(m, plan, at, aliasRunId, after, r)
    requires !plan.Conflict?
    ensures r.Ok? && Achieved(m, ev, after)
  {
    PlansExactly(m, ev, plan);
    match plan {
      case NoChange => RestAchieves(m, ev);
      case Bind(run, key) =>
        PlannedBindApplies(m, ev, run, key, at, aliasRunId);
        BindAchieves(m, ev, key, after);
      case Merge(s, a) =>
        MergeAppliedRecords(m, s, a, at);
        MergeMovesKeys(m, s, a, at);
        MergeRows(m, s, a, at);
        MergeAchieves(m, ev, s, a, after);
    }
  }

  lemma BindApplies(sys: System, run: RunId, key: RunKey, at: int, aliasRunId: RunId) returns (r: Applying)
    requires Bound(sys.model, run, key, at, aliasRunId).Ok?
    ensures Applied(sys.model, Bind(run, key), at, aliasRunId, PlanStep(sys, Bind(run, key), at, aliasRunId).model, r)
  {
    r := Ok(Bound(sys.model, run, key, at, aliasRunId).value.ops);
  }

  lemma MergeApplies(sys: System, s: RunId, a: RunId, at: int, aliasRunId: RunId) returns (r: Applying)
    requires Good(sys) && MergeAccepted(sys.model, s, a)
    ensures Applied(sys.model, Merge(s, a), at, aliasRunId, PlanStep(sys, Merge(s, a), at, aliasRunId).model, r)
  {
    var after := MergeApplied(sys.model, s, a, at);
    MergeAppliedRecords(sys.model, s, a, at);
    MergedSingleBinding(sys.model, s, a, at);
    r := Ok([MergeTaskRuns(s, a),
             UpsertTaskRun(Persisted(after.taskRuns[s], SingleNativeBinding(after, s).value, at))]);
  }

  lemma PlannedBind(m: Model, ev: BindingEvidence, run: RunId, key: RunKey, at: int, aliasRunId: RunId)
    requires IdentityInvariant(m) && Planned(m, ev, Bind(run, key))
    ensures Bound(m, run, key, at, aliasRunId).Ok?
  {
    PlannedBindApplies(m, ev, run, key, at, aliasRunId);
  }

  /** The step of the system for a plan that is no conflict applies the plan. */
  lemma PlanApplies(sys: System, ev: BindingEvidence, plan: BindingPlan, at: int, aliasRunId: RunId)
    returns (r: Applying)
    requires Good(sys) && Planned(sys.model, ev, plan) && !plan.Conflict?
    ensures Applied(sys.model, plan, at, aliasRunId, PlanStep(sys, plan, at, aliasRunId).model, r)
  {
    match plan
    case NoChange => r := Ok([]);
    case Bind(run, key) =>
      PlannedBind(sys.model, ev, run, key, at, aliasRunId);
      r := BindApplies(sys, run, key, at, aliasRunId);
    case Merge(s, a) =>
      PlannedMerge(sys.model, ev, s, a);
      r := MergeApplies(sys, s, a, at, aliasRunId);
  }

  /** And for good: over every later run of the system the session key and the run's former key stay together. */
  lemma JoinedForGood(sys: System, ev: BindingEvidence, plan: BindingPlan, at: int, aliasRunId: RunId, ops: seq<Op>)
    requires Good(sys) && Planned(sys.model, ev, plan) && !plan.Conflict? && EvidenceKey(ev).Some?
    requires EnabledThroughout(PlanStep(sys, plan, at, aliasRunId), ops)
    ensures ev.run in sys.model.taskRuns
    ensures var key, own := EvidenceKey(ev).value, sys.model.taskRuns[ev.run].key;
            var final := Run(PlanStep(sys, plan, at, aliasRunId), ops).model;
            key in final.keyOwner && own in final.keyOwner && final.keyOwner[key] == final.keyOwner[own]
  {
    var next := PlanStep(sys, plan, at, aliasRunId);
    var r := PlanApplies(sys, ev, plan, at, aliasRunId);
    EvidenceTakesEffect(sys.model, ev, plan, at, aliasRunId, next.model, r);
    PlanStepKeepsGood(sys, plan, at, aliasRunId);
    KeysFollowMerges(next, ops, EvidenceKey(ev).value);
    KeysFollowMerges(next, ops, sys.model.taskRuns[ev.run].key);
  }

  // ----- what a conflict reports

  /** The owner of the session key the evidence is about. */
  ghost predicate OwnsSession(m: Model, ev: BindingEvidence, owner: RunId) {
    EvidenceKey(ev).Some? && EvidenceKey(ev).value in m.keyOwner && m.keyOwner[EvidenceKey(ev).value] == owner
  }

  ghost predicate LivesIn(m: Model, terminalId: string, run: RunId) {
    exists i :: LiveIn(m, i, terminalId) && m.executions[i].taskRunId == run
  }

  /** The runs live in the terminal, in ascending order. */
  ghost predicate ListsLive(m: Model, terminalId: string, runs: seq<RunId>) {
    && (forall i, j :: 0 <= i < j < |runs| ==> runs[i] < runs[j])
    && (forall r: RunId :: r in runs <==> LivesIn(m, terminalId, r))
  }

  lemma SortedListsLive(m: Model, terminalId: string)
    ensures ListsLive(m, terminalId, Sorted(LiveRuns(m, terminalId)))
  {
    LiveRunsAre(m, terminalId);
    forall r: RunId ensures r in LiveRuns(m, terminalId) <==> LivesIn(m, terminalId, r) {
      if r in LiveRuns(m, terminalId) {
        var i :| LiveIn(m, i, terminalId) && m.executions[i].taskRunId == r;
      }
    }
  }

  /** What the conflict says is so. */
  ghost predicate HoldsTrue(m: Model, ev: BindingEvidence, c: MergeConflict) {
    match c
    case MissingRun(r) =>
      r !in m.taskRuns && (r == ev.run || (ev.ControllerTerminal? && OnlyLive(m, ev.terminalId, r)))
    case EvidenceMismatch(r) =>
      && r == ev.run && r in m.taskRuns && !ev.ControllerNativeSession? && !ev.ControllerTerminal?
      && if ev.NativeSession? then !IsProvisional(m, r) && !IsController(m, r) && !OwnsSession(m, ev, r)
         else !Addresses(m, ev)
    case ExplicitControllerEvidenceRequired(controller, observed) =>
      && ev.NativeSession? && IsController(m, controller)
      && (if observed == ev.run && controller == ev.run then EvidenceKey(ev).value !in m.keyOwner
          else if observed == ev.run then OwnsSession(m, ev, controller)
          else controller == ev.run && OwnsSession(m, ev, observed) && !IsController(m, observed))
    case ControllerRunRequired(r) =>
      r == ev.run && r in m.taskRuns && !IsController(m, r) && (ev.ControllerNativeSession? || ev.ControllerTerminal?)
    case NativeSessionAlreadyBound(session, owner, claimant) =>
      && claimant == ev.run && EvidenceKey(ev) == Some(session) && OwnsSession(m, ev, owner) && owner != claimant
      && (ev.HeuristicNativeSession? || (ev.ControllerNativeSession? && IsController(m, owner)))
    case NativeSessionRebind(r) =>
      && r == ev.run && ev.ControllerNativeSession? && IsController(m, r)
      && exists k :: k in m.keyOwner && m.keyOwner[k] == r && k.Native? && EvidenceKey(ev) != Some(k)
    case ControllerIdentityAlreadyBound(owner, claimant) =>
      && ev.ControllerTerminal? && claimant == ev.run && owner != claimant && IsController(m, owner)
      && IsController(m, claimant) && OnlyLive(m, ev.terminalId, owner)
    case AmbiguousTerminal(terminalId, runs) =>
      ev.ControllerTerminal? && terminalId == ev.terminalId && |runs| > 1 && ListsLive(m, terminalId, runs)
    case _ => false
  }

  lemma SessionRefusalIsTrue(m: Model, ev: BindingEvidence)
    requires IdentityInvariant(m) && Decide(m, ev).Settled? && Decide(m, ev).plan.Conflict?
    requires ev.NativeSession? || ev.HeuristicNativeSession? || ev.NativePathResolved?
    ensures HoldsTrue(m, ev, Decide(m, ev).plan.conflict)
  {
    var key := EvidenceKey(ev).value;
    if key in m.keyOwner { OwnerHoldsSession(m, key); }
  }

  lemma ControllerRefusalIsTrue(m: Model, ev: BindingEvidence)
    requires IdentityInvariant(m) && Decide(m, ev).Settled? && Decide(m, ev).plan.Conflict?
    requires ev.ControllerNativeSession?
    ensures HoldsTrue(m, ev, Decide(m, ev).plan.conflict)
  {
    var key := EvidenceKey(ev).value;
    if key in m.keyOwner { OwnerHoldsSession(m, key); }
    if IsController(m, ev.run) { SessionOfController(m, ev.run); }
  }

  lemma SoleIsLive(m: Model, terminalId: string)
    requires |Sorted(LiveRuns(m, terminalId))| == 1
    ensures OnlyLive(m, terminalId, Sorted(LiveRuns(m, terminalId))[0])
  {
    ClassifyLive(m, terminalId, 0);
  }

  /** The refusals of terminal evidence, given the runs live in the terminal. */
  lemma RefusedByLiveRuns(m: Model, ev: BindingEvidence, live: seq<RunId>)
    requires ev.ControllerTerminal? && IsController(m, ev.run) && live == Sorted(LiveRuns(m, ev.terminalId))
    requires Decide(m, ev).Settled? && Decide(m, ev).plan.Conflict?
    ensures if |live| > 1 then Decide(m, ev).plan.conflict == AmbiguousTerminal(ev.terminalId, live)
            else
              && |live| == 1 && live[0] != ev.run && (live[0] in m.taskRuns ==> IsController(m, live[0]))
              && Decide(m, ev).plan.conflict == (if live[0] !in m.taskRuns then MissingRun(live[0])
                                                 else ControllerIdentityAlreadyBound(live[0], ev.run))
  {
    if |live| == 1 { assert live == [live[0]]; }
  }

  lemma TerminalRefusalIsTrue(m: Model, ev: BindingEvidence)
    requires Decide(m, ev).Settled? && Decide(m, ev).plan.Conflict?
    requires ev.ControllerTerminal?
    ensures HoldsTrue(m, ev, Decide(m, ev).plan.conflict)
  {
    var live := Sorted(LiveRuns(m, ev.terminalId));
    if IsController(m, ev.run) {
      RefusedByLiveRuns(m, ev, live);
      if |live| == 1 { SoleIsLive(m, ev.terminalId); } else { SortedListsLive(m, ev.terminalId); }
    }
  }

  /** A conflict reports something true of the model, of the evidence itself or of the merge it asks for. */
  lemma ConflictsAreTrue(m: Model, ev: BindingEvidence, c: MergeConflict)
    requires IdentityInvariant(m) && Planned(m, ev, Conflict(c))
    ensures HoldsTrue(m, ev, c)
            || exists s, a :: Addresses(m, ev) && CallsForMerge(m, ev, s, a) && MergeRefusal(m, s, a, c)
  {
    if Decide(m, ev).Propose? {
      DecisionIsClassified(m, ev);
      var s, a := Decide(m, ev).survivor, Decide(m, ev).absorbed;
      assert CallsForMerge(m, ev, s, a) && MergeRefusal(m, s, a, c);
    } else {
      match ev
      case ControllerNativeSession(_, _, _) => ControllerRefusalIsTrue(m, ev);
      case ControllerTerminal(_, _) => TerminalRefusalIsTrue(m, ev);
      case _ => SessionRefusalIsTrue(m, ev);
    }
  }

  // ----- which identities may be joined

  /** A run keyed like this may not be absorbed by one keyed like that. */
  predicate Outranks(absorbed: RunKey, survivor: RunKey) {
    match absorbed
    case Controller(_) => true
    case Native(_, _) => survivor.NativePath? || survivor.Provisional?
    case NativePath(_, _) => survivor.Provisional?
    case Provisional(_, _, _) => false
  }

  ghost predicate HasSession(m: Model, run: RunId) {
    exists k :: k in m.keyOwner && m.keyOwner[k] == run && k.Native?
  }

  lemma SessionOf(m: Model, run: RunId)
    requires IdentityInvariant(m) && run in m.taskRuns
    ensures SingleNativeBinding(m, run).Ok?
    ensures SingleNativeBinding(m, run).value.Some? <==> HasSession(m, run)
  {
    SingleSession(m, run);
    assert m.taskRuns[run].key in m.keyOwner && m.keyOwner[m.taskRuns[run].key] == run;
    if HasSession(m, run) {
      var k :| k in m.keyOwner && m.keyOwner[k] == run && k.Native?;
      assert k in NativeBindings(m, run);
    }
  }

  /**
   * Two identities may be joined exactly when both runs are known and different, the absorbed key does not outrank the
   * survivor's, so that no Controller-keyed run is absorbed, and at most one of them has a native session.
   */
  lemma IdentitiesAllowExactly(m: Model, survivor: RunId, absorbed: RunId)
    requires IdentityInvariant(m)
    ensures IdentityRefusal(m, survivor, absorbed).None?
            <==> && survivor in m.taskRuns && absorbed in m.taskRuns && survivor != absorbed
                 && !Outranks(m.taskRuns[absorbed].key, m.taskRuns[survivor].key)
                 && !(HasSession(m, survivor) && HasSession(m, absorbed))
  {
    if survivor in m.taskRuns && absorbed in m.taskRuns {
      SessionOf(m, survivor);
      SessionOf(m, absorbed);
    }
  }

  lemma SessionIsOwned(m: Model, run: RunId)
    requires IdentityInvariant(m) && run in m.taskRuns && SingleNativeBinding(m, run).Ok?
             && SingleNativeBinding(m, run).value.Some?
    ensures var k := SingleNativeBinding(m, run).value.value; k in m.keyOwner && m.keyOwner[k] == run
  {
  }

  /** What a refusal on account of identities reports is true. */
  lemma IdentityRefusalIsTrue(m: Model, survivor: RunId, absorbed: RunId)
    requires IdentityInvariant(m) && IdentityRefusal(m, survivor, absorbed).Some?
    ensures match IdentityRefusal(m, survivor, absorbed).value
            case MissingRun(r) => r !in m.taskRuns && (r == survivor || r == absorbed)
            case SameRun(r) => r == survivor && r == absorbed
            case LowerPrioritySurvivor(s, a) =>
              && s == survivor && a == absorbed && survivor in m.taskRuns && absorbed in m.taskRuns
              && Outranks(m.taskRuns[absorbed].key, m.taskRuns[survivor].key) && !IsController(m, survivor)
            case ControllerIdentityAlreadyBound(owner, claimant) =>
              owner == absorbed && claimant == survivor && IsController(m, survivor) && IsController(m, absorbed)
            case DifferingNativeSessions(s, a) =>
              s == survivor && a == absorbed && HasSession(m, survivor) && HasSession(m, absorbed)
            case _ => false
  {
    if survivor in m.taskRuns && absorbed in m.taskRuns {
      SessionOf(m, survivor);
      SessionOf(m, absorbed);
      if SingleNativeBinding(m, survivor).value.Some? { SessionIsOwned(m, survivor); }
      if SingleNativeBinding(m, absorbed).value.Some? { SessionIsOwned(m, absorbed); }
    }
  }
}
