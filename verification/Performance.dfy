/** The performance tracker: admissions, out-of-order completion, rate windows, and the latching lag generation. */
module Performance {
  import opened Types

  /** Durations are whole nanoseconds. */
  type Duration = nat

  const ONE_SECOND: Duration := 1_000_000_000
  const TEN_SECONDS: Duration := 10 * ONE_SECOND
  const SIXTY_SECONDS: Duration := 60 * ONE_SECOND

  // ----- the tracker as a value

  datatype Tracker = Tracker(
    admissionHighWater: nat,
    completionHighWater: nat,
    pending: map<nat, Duration>,
    admissionTimes: seq<Duration>,
    lagBreachHighWater: Option<nat>)

  const EMPTY := Tracker(0, 0, map[], [], None)

  function Admitted(t: Tracker, at: Duration, rated: bool): Tracker {
    var sequence := t.admissionHighWater + 1;
    t.(admissionHighWater := sequence,
       pending := t.pending[sequence := at],
       admissionTimes := if rated then t.admissionTimes + [at] else t.admissionTimes)
  }

  function Completed(t: Tracker, sequence: nat): Tracker {
    if sequence in t.pending then
      t.(pending := t.pending - {sequence}, completionHighWater := Max(t.completionHighWater, sequence))
    else t
  }

  function DropExpired(times: seq<Duration>, boundary: Duration): seq<Duration> {
    if times != [] && times[0] <= boundary then DropExpired(times[1..], boundary) else times
  }

  function Unexpired(times: seq<Duration>, now: Duration): seq<Duration> {
    if now < SIXTY_SECONDS then times else DropExpired(times, now - SIXTY_SECONDS)
  }

  /** In the window of `width` ending at `now`, open at its start; before one width has passed there is no start. */
  predicate InWindow(at: Duration, now: Duration, width: Duration) {
    at <= now && (width <= now ==> now - width < at)
  }

  function WindowCount(times: seq<Duration>, now: Duration, width: Duration): nat {
    if times == [] then 0
    else WindowCount(times[..|times| - 1], now, width) + if InWindow(times[|times| - 1], now, width) then 1 else 0
  }

  ghost predicate IsOldest(pending: map<nat, Duration>, sequence: nat) {
    sequence in pending && forall s :: s in pending ==> sequence <= s
  }

  lemma {:induction false} OldestExists(pending: map<nat, Duration>)
    requires pending != map[]
    ensures exists s :: IsOldest(pending, s)
    decreases |pending.Keys|
  {
    var s :| s in pending;
    var rest := pending - {s};
    if rest == map[] {
      assert forall x :: x in pending ==> x == s || x in rest;
      assert IsOldest(pending, s);
    } else {
      assert rest.Keys == pending.Keys - {s};
      OldestExists(rest);
      var r: nat :| IsOldest(rest, r);
      assert forall x :: x in pending ==> x == s || x in rest;
      assert IsOldest(pending, Min(r, s));
    }
  }

  ghost function Oldest(pending: map<nat, Duration>): (sequence: nat)
    requires pending != map[]
    ensures IsOldest(pending, sequence)
  {
    OldestExists(pending);
    var s: nat :| IsOldest(pending, s);
    s
  }

  ghost function Lag(pending: map<nat, Duration>, now: Duration): Duration {
    if pending == map[] then 0 else Max(0, now - pending[Oldest(pending)])
  }

  /** The latch falls when everything up to it has completed, and rises to the admissions so far on excessive lag. */
  ghost function Latched(t: Tracker, lag: Duration): Option<nat> {
    var fallen := t.lagBreachHighWater.Some? && (t.pending == map[] || Oldest(t.pending) > t.lagBreachHighWater.value);
    var kept := if fallen then None else t.lagBreachHighWater;
    if kept.None? && t.pending != map[] && lag > ONE_SECOND then Some(t.admissionHighWater) else kept
  }

  ghost function Sampled(t: Tracker, now: Duration): Tracker {
    t.(admissionTimes := Unexpired(t.admissionTimes, now), lagBreachHighWater := Latched(t, Lag(t.pending, now)))
  }

  // ----- the mutable state

  datatype AdmissionStamp = AdmissionStamp(sequence: nat, admittedAt: Duration)

  class PerformanceState {
    var admissionHighWater: nat
    var completionHighWater: nat
    var pending: map<nat, Duration>
    var admissionTimes: seq<Duration>
    var lagBreachHighWater: Option<nat>

    ghost function State(): Tracker
      reads this
    {
      Tracker(admissionHighWater, completionHighWater, pending, admissionTimes, lagBreachHighWater)
    }

    constructor ()
      ensures State() == EMPTY
    {
      admissionHighWater, completionHighWater := 0, 0;
      pending, admissionTimes, lagBreachHighWater := map[], [], None;
    }

    method Admit(at: Duration, rated: bool) returns (stamp: AdmissionStamp)
      modifies this
      ensures State() == Admitted(old(State()), at, rated)
      ensures stamp == AdmissionStamp(admissionHighWater, at)
    {
      var sequence := admissionHighWater + 1;
      admissionHighWater := sequence;
      pending := pending[sequence := at];
      if rated { admissionTimes := admissionTimes + [at]; }
      stamp := AdmissionStamp(sequence, at);
    }

    method Complete(sequence: nat)
      modifies `pending, `completionHighWater
      ensures State() == Completed(old(State()), sequence)
    {
      if sequence in pending {
        pending := pending - {sequence};
        completionHighWater := Max(completionHighWater, sequence);
      }
    }

    method DiscardExpiredAdmissionTimes(now: Duration)
      modifies `admissionTimes
      ensures admissionTimes == Unexpired(old(admissionTimes), now)
    {
      if now < SIXTY_SECONDS { return; }
      var boundary := now - SIXTY_SECONDS;
      while admissionTimes != [] && admissionTimes[0] <= boundary
        invariant DropExpired(admissionTimes, boundary) == DropExpired(old(admissionTimes), boundary)
        decreases |admissionTimes|
      {
        admissionTimes := admissionTimes[1..];
      }
    }

    method CountWindow(now: Duration, width: Duration) returns (count: nat)
      ensures count == WindowCount(admissionTimes, now, width)
    {
      count := 0;
      for i := 0 to |admissionTimes|
        invariant count == WindowCount(admissionTimes[..i], now, width)
      {
        assert admissionTimes[..i + 1][..i] == admissionTimes[..i];
        if InWindow(admissionTimes[i], now, width) { count := count + 1; }
      }
      assert admissionTimes[..|admissionTimes|] == admissionTimes;
    }

    method OldestPending() returns (sequence: Option<nat>)
      ensures sequence == if pending == map[] then None else Some(Oldest(pending))
    {
      if pending == map[] { return None; }
      var rest := pending.Keys;
      var best :| best in rest;
      rest := rest - {best};
      while rest != {}
        invariant best in pending && rest <= pending.Keys
        invariant forall s :: s in pending && s !in rest ==> best <= s
      {
        var s :| s in rest;
        rest := rest - {s};
        if s < best { best := s; }
      }
      assert IsOldest(pending, best);
      sequence := Some(best);
    }

    method EventLag(now: Duration) returns (lag: Duration)
      ensures lag == Lag(pending, now)
    {
      var oldest := OldestPending();
      lag := if oldest.Some? then Max(0, now - pending[oldest.value]) else 0;
    }

    method UpdateLagGeneration(lag: Duration)
      modifies `lagBreachHighWater
      ensures lagBreachHighWater == Latched(old(State()), lag)
    {
      var oldest := OldestPending();
      if lagBreachHighWater.Some? && (oldest.None? || oldest.value > lagBreachHighWater.value) {
        lagBreachHighWater := None;
      }
      if lagBreachHighWater.None? && pending != map[] && lag > ONE_SECOND {
        lagBreachHighWater := Some(admissionHighWater);
      }
    }
  }

  /** A guard over one admission: whatever happens first, completion or drop, completes it, and only once. */
  class Admission {
    const shared: PerformanceState
    const stamp: AdmissionStamp
    var completed: bool

    constructor (shared: PerformanceState, stamp: AdmissionStamp)
      ensures this.shared == shared && this.stamp == stamp && !completed
    {
      this.shared, this.stamp, completed := shared, stamp, false;
    }

    method CompleteOnce()
      modifies `completed, shared
      ensures completed
      ensures shared.State() == if old(completed) then old(shared.State())
              else Completed(old(shared.State()), stamp.sequence)
    {
      if completed { return; }
      shared.Complete(stamp.sequence);
      completed := true;
    }

    /** Completing consumes the guard, so its drop follows, and changes nothing more. */
    method Complete()
      modifies `completed, shared
      ensures completed
      ensures shared.State() == if old(completed) then old(shared.State())
              else Completed(old(shared.State()), stamp.sequence)
    {
      CompleteOnce();
      CompleteOnce();
    }
  }

  datatype DegradationReason =
    | LivePanes
    | DefaultVisibleTaskRuns
    | DependencyEdges
    | EventsOneSecond
    | EventsTenSeconds
    | EventsSixtySeconds
    | EventLag

  datatype Workload = Workload(livePanes: nat, defaultVisibleTaskRuns: nat, dependencyEdges: nat, executionEdges: nat)

  datatype PerformanceSnapshot = PerformanceSnapshot(
    eventLag: Duration,
    pendingEvents: nat,
    admissionHighWater: nat,
    completionHighWater: nat,
    eventsOneSecond: nat,
    eventsTenSeconds: nat,
    eventsSixtySeconds: nat,
    workload: Workload,
    reasons: set<DegradationReason>)

  predicate Degraded(reason: DegradationReason, s: PerformanceSnapshot, latched: bool) {
    match reason
    case LivePanes => s.workload.livePanes > 50
    case DefaultVisibleTaskRuns => s.workload.defaultVisibleTaskRuns > 200
    case DependencyEdges => s.workload.dependencyEdges > 1_000
    case EventsOneSecond => s.eventsOneSecond > 100
    case EventsTenSeconds => s.eventsTenSeconds > 1_000
    case EventsSixtySeconds => s.eventsSixtySeconds > 1_200
    case EventLag => latched
  }

  method Reasons(s: PerformanceSnapshot, latched: bool) returns (reasons: set<DegradationReason>)
    ensures forall r :: r in reasons <==> Degraded(r, s, latched)
  {
    reasons := {};
    if s.workload.livePanes > 50 { reasons := reasons + {LivePanes}; }
    if s.workload.defaultVisibleTaskRuns > 200 { reasons := reasons + {DefaultVisibleTaskRuns}; }
    if s.workload.dependencyEdges > 1_000 { reasons := reasons + {DependencyEdges}; }
    if s.eventsOneSecond > 100 { reasons := reasons + {EventsOneSecond}; }
    if s.eventsTenSeconds > 1_000 { reasons := reasons + {EventsTenSeconds}; }
    if s.eventsSixtySeconds > 1_200 { reasons := reasons + {EventsSixtySeconds}; }
    if latched { reasons := reasons + {EventLag}; }
  }

  class PerformanceSampler {
    const shared: PerformanceState
    var lastSampledAt: Option<Duration>

    constructor (shared: PerformanceState)
      ensures this.shared == shared && lastSampledAt == None
    {
      this.shared, lastSampledAt := shared, None;
    }

    method Sample(workload: Workload, now: Duration) returns (snapshot: PerformanceSnapshot)
      modifies `lastSampledAt, shared`admissionTimes, shared`lagBreachHighWater
      ensures lastSampledAt == Some(now)
      ensures shared.State() == Sampled(old(shared.State()), now)
      ensures snapshot.eventLag == Lag(shared.pending, now) && snapshot.pendingEvents == |shared.pending|
      ensures snapshot.admissionHighWater == shared.admissionHighWater
              && snapshot.completionHighWater == shared.completionHighWater
      ensures snapshot.eventsOneSecond == WindowCount(shared.admissionTimes, now, ONE_SECOND)
      ensures snapshot.eventsTenSeconds == WindowCount(shared.admissionTimes, now, TEN_SECONDS)
      ensures snapshot.eventsSixtySeconds == WindowCount(shared.admissionTimes, now, SIXTY_SECONDS)
      ensures snapshot.workload == workload
      ensures forall r :: r in snapshot.reasons <==> Degraded(r, snapshot, shared.lagBreachHighWater.Some?)
    {
      shared.DiscardExpiredAdmissionTimes(now);
      var lag := shared.EventLag(now);
      shared.UpdateLagGeneration(lag);
      var one := shared.CountWindow(now, ONE_SECOND);
      var ten := shared.CountWindow(now, TEN_SECONDS);
      var sixty := shared.CountWindow(now, SIXTY_SECONDS);
      var measured := PerformanceSnapshot(lag, |shared.pending|, shared.admissionHighWater, shared.completionHighWater,
                                          one, ten, sixty, workload, {});
      var reasons := Reasons(measured, shared.lagBreachHighWater.Some?);
      snapshot := measured.(reasons := reasons);
      lastSampledAt := Some(now);
    }
  }
}
