/** Whole traces of admissions, completions and samples against what the tracker reports. */
module PerformanceProofs {
  import opened Types
  import opened Performance

  datatype Event = Admit(at: Duration, rated: bool) | Complete(sequence: nat) | Sample(now: Duration)

  ghost function Next(t: Tracker, e: Event): Tracker {
    match e
    case Admit(at, rated) => Admitted(t, at, rated)
    case Complete(sequence) => Completed(t, sequence)
    case Sample(now) => Sampled(t, now)
  }

  ghost function Run(es: seq<Event>): Tracker {
    if es == [] then EMPTY else Next(Run(es[..|es| - 1]), es[|es| - 1])
  }

  // ----- admissions and completions, read off the trace

  function AdmitCount(es: seq<Event>): nat {
    if es == [] then 0 else AdmitCount(es[..|es| - 1]) + if es[|es| - 1].Admit? then 1 else 0
  }

  /** Position `k` of the trace admits sequence number `s`. */
  ghost predicate IsAdmission(es: seq<Event>, k: int, s: nat) {
    0 <= k < |es| && es[k].Admit? && AdmitCount(es[..k]) + 1 == s
  }

  ghost predicate NeverCompletedAfter(es: seq<Event>, k: int, s: nat) {
    forall j :: 0 <= j < |es| && k < j ==> es[j] != Complete(s)
  }

  lemma {:induction false} CountGrows(es: seq<Event>, k: nat)
    requires k <= |es|
    ensures AdmitCount(es[..k]) <= AdmitCount(es)
    ensures k < |es| && es[k].Admit? ==> AdmitCount(es[..k]) < AdmitCount(es)
  {
    if k == |es| {
      assert es[..k] == es;
    } else {
      var init := es[..|es| - 1];
      CountGrows(init, k);
      assert init[..k] == es[..k];
    }
  }

  lemma {:induction false} HighWaterIsCount(es: seq<Event>)
    ensures Run(es).admissionHighWater == AdmitCount(es)
    ensures forall s :: s in Run(es).pending ==> 1 <= s <= AdmitCount(es)
  {
    if es != [] { HighWaterIsCount(es[..|es| - 1]); }
  }

  lemma AdmissionInPrefix(es: seq<Event>, k: nat, s: nat)
    requires k < |es| - 1
    ensures IsAdmission(es, k, s) <==> IsAdmission(es[..|es| - 1], k, s)
  {
    assert es[..|es| - 1][..k] == es[..k];
  }

  lemma {:induction false} PendingWasAdmitted(es: seq<Event>, s: nat) returns (k: nat)
    requires s in Run(es).pending
    ensures IsAdmission(es, k, s) && NeverCompletedAfter(es, k, s) && Run(es).pending[s] == es[k].at
  {
    var init, last := es[..|es| - 1], es[|es| - 1];
    HighWaterIsCount(init);
    if last.Admit? && s == AdmitCount(init) + 1 {
      k := |init|;
    } else {
      k := PendingWasAdmitted(init, s);
      AdmissionInPrefix(es, k, s);
      assert last != Complete(s);
      assert es == init + [last];
    }
  }

  lemma {:induction false} AdmittedIsPending(es: seq<Event>, k: nat, s: nat)
    requires IsAdmission(es, k, s) && NeverCompletedAfter(es, k, s)
    ensures s in Run(es).pending
  {
    var init, last := es[..|es| - 1], es[|es| - 1];
    if k < |init| {
      AdmissionInPrefix(es, k, s);
      assert es == init + [last];
      AdmittedIsPending(init, k, s);
      assert es[|init|] != Complete(s);
    } else {
      HighWaterIsCount(init);
    }
  }

  /** An admission is pending exactly when no completion of it follows, in whatever order completions come. */
  lemma PendingExactly(es: seq<Event>, s: nat)
    ensures s in Run(es).pending <==> exists k :: IsAdmission(es, k, s) && NeverCompletedAfter(es, k, s)
  {
    if s in Run(es).pending {
      var k := PendingWasAdmitted(es, s);
    }
    if k :| IsAdmission(es, k, s) && NeverCompletedAfter(es, k, s) {
      AdmittedIsPending(es, k, s);
    }
  }

  /** The number of completions of `s` that found it pending. */
  ghost function Completions(es: seq<Event>, s: nat): nat {
    if es == [] then 0
    else
      var init := es[..|es| - 1];
      Completions(init, s) + if es[|es| - 1] == Complete(s) && s in Run(init).pending then 1 else 0
  }

  /** Every sequence number up to the admission high water is pending, or was completed exactly once. */
  lemma {:induction false} PendingOrCompletedOnce(es: seq<Event>, s: nat)
    ensures Completions(es, s) == if 1 <= s <= Run(es).admissionHighWater && s !in Run(es).pending then 1 else 0
  {
    HighWaterIsCount(es);
    if es != [] {
      var init := es[..|es| - 1];
      PendingOrCompletedOnce(init, s);
      HighWaterIsCount(init);
    }
  }

  /** The completion high water is the greatest sequence number completed, and zero before any. */
  lemma {:induction false} CompletionHighWaterIsGreatest(es: seq<Event>, s: nat)
    ensures Completions(es, s) > 0 ==> s <= Run(es).completionHighWater
    ensures var top := Run(es).completionHighWater; top == 0 || Completions(es, top) > 0
  {
    if es != [] {
      var init := es[..|es| - 1];
      CompletionHighWaterIsGreatest(init, s);
    }
  }

  // ----- event lag

  /** Admissions are stamped in the order they are made. */
  ghost predicate StampsInOrder(es: seq<Event>) {
    forall i, j :: 0 <= i < j < |es| && es[i].Admit? && es[j].Admit? ==> es[i].at <= es[j].at
  }

  lemma CountGrowsBetween(es: seq<Event>, j: nat, i: nat)
    requires j < i <= |es| && es[j].Admit?
    ensures AdmitCount(es[..j]) < AdmitCount(es[..i])
  {
    CountGrows(es[..i], j);
    assert es[..i][..j] == es[..j];
  }

  lemma LaterSequenceLaterPosition(es: seq<Event>, i: nat, r: nat, j: nat, s: nat)
    requires IsAdmission(es, i, r) && IsAdmission(es, j, s) && r <= s
    ensures i <= j
  {
    if j < i {
      CountGrowsBetween(es, j, i);
    }
  }

  /** The reported lag is the greatest age of any pending event. */
  lemma LagIsGreatestAge(es: seq<Event>, now: Duration)
    requires StampsInOrder(es)
    ensures var pending := Run(es).pending;
            && (forall s :: s in pending ==> now - pending[s] <= Lag(pending, now))
            && (Lag(pending, now) > 0 ==> exists s :: s in pending && now - pending[s] == Lag(pending, now))
  {
    var pending := Run(es).pending;
    forall s | s in pending ensures now - pending[s] <= Lag(pending, now) {
      var oldest := Oldest(pending);
      var i := PendingWasAdmitted(es, oldest);
      var j := PendingWasAdmitted(es, s);
      LaterSequenceLaterPosition(es, i, oldest, j, s);
    }
  }

  // ----- rate windows

  function RatedTimes(es: seq<Event>): seq<Duration> {
    if es == [] then []
    else
      var last := es[|es| - 1];
      RatedTimes(es[..|es| - 1]) + if last.Admit? && last.rated then [last.at] else []
  }

  /** Up to `now`, and after the start of the window if that many nanoseconds have passed at all. */
  predicate Within(at: Duration, now: Duration, width: Duration) {
    at <= now && (now < width || now - width < at)
  }

  function RatedInWindow(es: seq<Event>, now: Duration, width: Duration): set<nat> {
    set k: nat | k < |es| && es[k].Admit? && es[k].rated && Within(es[k].at, now, width)
  }

  ghost predicate SampledBy(es: seq<Event>, now: Duration) {
    forall k :: 0 <= k < |es| && es[k].Sample? ==> es[k].now <= now
  }

  lemma {:induction false} CountOfSplit(a: seq<Duration>, b: seq<Duration>, now: Duration, width: Duration)
    ensures WindowCount(a + b, now, width) == WindowCount(a, now, width) + WindowCount(b, now, width)
  {
    if b == [] {
      assert a + b == a;
    } else {
      var init := b[..|b| - 1];
      CountOfSplit(a, init, now, width);
      assert (a + b)[..|a + b| - 1] == a + init;
    }
  }

  lemma {:induction false} NoneInWindow(a: seq<Duration>, now: Duration, width: Duration)
    requires forall i :: 0 <= i < |a| ==> !InWindow(a[i], now, width)
    ensures WindowCount(a, now, width) == 0
  {
    if a != [] { NoneInWindow(a[..|a| - 1], now, width); }
  }

  lemma {:induction false} DroppedAreExpired(times: seq<Duration>, boundary: Duration) returns (dropped: seq<Duration>)
    ensures times == dropped + DropExpired(times, boundary)
    ensures forall i :: 0 <= i < |dropped| ==> dropped[i] <= boundary
  {
    dropped := [];
    if times != [] && times[0] <= boundary {
      var rest := DroppedAreExpired(times[1..], boundary);
      dropped := [times[0]] + rest;
      assert times == [times[0]] + times[1..];
    }
  }

  /** The queue is the rated history without a prefix that no later sample's windows can reach. */
  lemma {:induction false} QueueIsSuffix(es: seq<Event>, now: Duration) returns (dropped: seq<Duration>)
    requires SampledBy(es, now)
    ensures RatedTimes(es) == dropped + Run(es).admissionTimes
    ensures forall i :: 0 <= i < |dropped| ==> dropped[i] + SIXTY_SECONDS <= now
  {
    dropped := [];
    if es != [] {
      var init, last := es[..|es| - 1], es[|es| - 1];
      assert es == init + [last];
      var before := QueueIsSuffix(init, now);
      dropped := before;
      if last.Sample? && last.now >= SIXTY_SECONDS {
        assert es[|init|] == last && last.now <= now;
        var more := DroppedAreExpired(Run(init).admissionTimes, last.now - SIXTY_SECONDS);
        dropped := before + more;
      }
    }
  }

  lemma {:induction false} CountIsCardinality(es: seq<Event>, now: Duration, width: Duration)
    ensures WindowCount(RatedTimes(es), now, width) == |RatedInWindow(es, now, width)|
  {
    if es != [] {
      var init, last := es[..|es| - 1], es[|es| - 1];
      CountIsCardinality(init, now, width);
      assert es == init + [last];
      var added: set<nat> := if last.Admit? && last.rated && InWindow(last.at, now, width) then {|init|} else {};
      assert RatedInWindow(es, now, width) == RatedInWindow(init, now, width) + added;
      CountOfSplit(RatedTimes(init), if last.Admit? && last.rated then [last.at] else [], now, width);
    }
  }

  lemma {:induction false} RatedAreAdmitted(es: seq<Event>, x: Duration)
    requires x in RatedTimes(es)
    ensures exists k :: 0 <= k < |es| && es[k].Admit? && es[k].at == x
  {
    var init, last := es[..|es| - 1], es[|es| - 1];
    if x in RatedTimes(init) { RatedAreAdmitted(init, x); } else { assert last.Admit? && last.at == x; }
  }

  lemma {:induction false} RatedInOrder(es: seq<Event>)
    requires StampsInOrder(es)
    ensures forall i, j :: 0 <= i < j < |RatedTimes(es)| ==> RatedTimes(es)[i] <= RatedTimes(es)[j]
  {
    if es != [] {
      var init, last := es[..|es| - 1], es[|es| - 1];
      RatedInOrder(init);
      if last.Admit? && last.rated {
        forall i | 0 <= i < |RatedTimes(init)| ensures RatedTimes(init)[i] <= last.at {
          RatedAreAdmitted(init, RatedTimes(init)[i]);
        }
      }
    }
  }

  lemma {:induction false} DropLeavesRecent(times: seq<Duration>, boundary: Duration)
    requires forall i, j :: 0 <= i < j < |times| ==> times[i] <= times[j]
    ensures forall i :: 0 <= i < |DropExpired(times, boundary)| ==> DropExpired(times, boundary)[i] > boundary
  {
    if times != [] && times[0] <= boundary { DropLeavesRecent(times[1..], boundary); }
  }

  /** With admissions stamped in order, a sample leaves no entry in the queue that is sixty seconds old. */
  lemma QueueIsRecent(es: seq<Event>, now: Duration)
    requires StampsInOrder(es) && SampledBy(es, now)
    ensures forall i :: 0 <= i < |Sampled(Run(es), now).admissionTimes|
              ==> now < Sampled(Run(es), now).admissionTimes[i] + SIXTY_SECONDS
  {
    var dropped := QueueIsSuffix(es, now);
    var queue := Run(es).admissionTimes;
    RatedInOrder(es);
    forall i, j | 0 <= i < j < |queue| ensures queue[i] <= queue[j] {
      assert RatedTimes(es)[|dropped| + i] == queue[i] && RatedTimes(es)[|dropped| + j] == queue[j];
    }
    if now >= SIXTY_SECONDS { DropLeavesRecent(queue, now - SIXTY_SECONDS); }
  }

  /** If the sampling clock never goes back, pruning changes no count of a window of at most sixty seconds. */
  lemma PrunedCountsAreExact(es: seq<Event>, now: Duration, width: Duration)
    requires SampledBy(es, now) && width <= SIXTY_SECONDS
    ensures WindowCount(Sampled(Run(es), now).admissionTimes, now, width) == |RatedInWindow(es, now, width)|
  {
    var all := es + [Sample(now)];
    assert all[..|es|] == es;
    var dropped := QueueIsSuffix(all, now);
    NoneInWindow(dropped, now, width);
    CountOfSplit(dropped, Run(all).admissionTimes, now, width);
    CountIsCardinality(all, now, width);
    assert RatedInWindow(all, now, width) == RatedInWindow(es, now, width);
  }

  // ----- lag generations

  /** Some event admitted before position `j` is still pending at the end of the trace. */
  ghost predicate Outstanding(es: seq<Event>, j: int)
    requires 0 <= j <= |es|
  {
    exists s :: s in Run(es).pending && s <= AdmitCount(es[..j])
  }

  /** A sample at `now` opens a generation: lag exceeds a second and no earlier generation is outstanding. */
  ghost predicate Opens(es: seq<Event>, now: Duration)
    decreases |es|
  {
    && Lag(Run(es).pending, now) > ONE_SECOND
    && !exists j :: 0 <= j < |es| && es[j].Sample? && Opens(es[..j], es[j].now) && Outstanding(es, j)
  }

  ghost predicate Opened(es: seq<Event>, j: int) {
    0 <= j < |es| && es[j].Sample? && Opens(es[..j], es[j].now)
  }

  /** An opened generation with an event it has seen still pending. */
  ghost predicate Live(es: seq<Event>, j: int) {
    Opened(es, j) && Outstanding(es, j)
  }

  ghost predicate AnyLive(es: seq<Event>) {
    exists j :: Live(es, j)
  }

  /** The latch holds the high water of the one generation that can be live. */
  ghost predicate LatchTracks(es: seq<Event>) {
    match Run(es).lagBreachHighWater
    case None => forall j :: !Live(es, j)
    case Some(h) =>
      && (exists j :: Opened(es, j) && AdmitCount(es[..j]) == h)
      && (forall j :: Live(es, j) ==> AdmitCount(es[..j]) == h)
  }

  lemma OpenedInPrefix(es: seq<Event>, j: nat)
    requires j < |es| - 1
    ensures Opened(es, j) <==> Opened(es[..|es| - 1], j)
    ensures es[..|es| - 1][..j] == es[..j]
  {
    assert es[..|es| - 1][..j] == es[..j];
  }

  /** An event that is not a sample opens nothing and revives nothing. */
  lemma OutstandingInPrefix(es: seq<Event>, j: nat)
    requires j < |es| - 1
    ensures Outstanding(es, j) ==> Outstanding(es[..|es| - 1], j)
    ensures es[|es| - 1].Sample? ==> (Outstanding(es, j) <==> Outstanding(es[..|es| - 1], j))
  {
    var init := es[..|es| - 1];
    assert init[..j] == es[..j];
    CountGrows(init, j);
    HighWaterIsCount(init);
    if Outstanding(es, j) {
      var s :| s in Run(es).pending && s <= AdmitCount(es[..j]);
      assert s in Run(init).pending;
    }
    if es[|es| - 1].Sample? && Outstanding(init, j) {
      var s :| s in Run(init).pending && s <= AdmitCount(init[..j]);
      assert s in Run(es).pending;
    }
  }

  lemma QuietStepTracks(es: seq<Event>)
    requires es != [] && !es[|es| - 1].Sample? && LatchTracks(es[..|es| - 1])
    ensures LatchTracks(es)
  {
    var init := es[..|es| - 1];
    forall j | Live(es, j) ensures Live(init, j) && init[..j] == es[..j] {
      OpenedInPrefix(es, j);
      OutstandingInPrefix(es, j);
    }
    if Run(init).lagBreachHighWater.Some? {
      var j :| Opened(init, j) && AdmitCount(init[..j]) == Run(init).lagBreachHighWater.value;
      OpenedInPrefix(es, j);
      assert Opened(es, j) && AdmitCount(es[..j]) == AdmitCount(init[..j]);
    }
  }

  /** The latch is up and some event it covers is pending. */
  ghost predicate Keeps(t: Tracker) {
    t.lagBreachHighWater.Some? && t.pending != map[] && Oldest(t.pending) <= t.lagBreachHighWater.value
  }

  /** Whether a sample keeps the latch is whether an opened generation is outstanding. */
  lemma KeptWhileOutstanding(es: seq<Event>)
    requires LatchTracks(es)
    ensures Keeps(Run(es)) <==> AnyLive(es)
  {
    var t := Run(es);
    if Keeps(t) {
      var h := t.lagBreachHighWater.value;
      var j :| Opened(es, j) && AdmitCount(es[..j]) == h;
      assert Oldest(t.pending) in t.pending;
      assert Outstanding(es, j);
      assert Live(es, j);
    }
    if j :| Live(es, j) {
      var s :| s in t.pending && s <= AdmitCount(es[..j]);
      assert Oldest(t.pending) <= s;
    }
  }

  lemma OpensExactly(es: seq<Event>, now: Duration)
    ensures Opens(es, now) <==> Lag(Run(es).pending, now) > ONE_SECOND && !AnyLive(es)
  {
    if j :| 0 <= j < |es| && es[j].Sample? && Opens(es[..j], es[j].now) && Outstanding(es, j) {
      assert Live(es, j);
    }
    if j :| Live(es, j) {
      assert 0 <= j < |es| && es[j].Sample? && Opens(es[..j], es[j].now) && Outstanding(es, j);
    }
  }

  lemma SampleSteps(es: seq<Event>)
    requires es != [] && es[|es| - 1].Sample?
    ensures var init := es[..|es| - 1];
            && (Opened(es, |init|) <==> Opens(init, es[|init|].now))
            && (forall j :: 0 <= j < |init|
                  ==> init[..j] == es[..j] && (Live(es, j) <==> Live(init, j)) && (Opened(es, j) <==> Opened(init, j)))
  {
    var init := es[..|es| - 1];
    forall j | 0 <= j < |init|
      ensures init[..j] == es[..j] && (Live(es, j) <==> Live(init, j)) && (Opened(es, j) <==> Opened(init, j))
    {
      OpenedInPrefix(es, j);
      OutstandingInPrefix(es, j);
    }
  }

  /** A sample while a generation is live changes nothing. */
  lemma LiveSampleTracks(es: seq<Event>, j: int)
    requires es != [] && es[|es| - 1].Sample? && LatchTracks(es[..|es| - 1]) && Live(es[..|es| - 1], j)
    ensures LatchTracks(es)
  {
    var init := es[..|es| - 1];
    SampleSteps(es);
    KeptWhileOutstanding(init);
    OpensExactly(init, es[|init|].now);
    assert !Opened(es, |init|);
    assert Run(es).lagBreachHighWater == Some(AdmitCount(init[..j]));
    assert Opened(es, j) && AdmitCount(es[..j]) == AdmitCount(init[..j]);
    forall i | Live(es, i) ensures AdmitCount(es[..i]) == AdmitCount(init[..j]) {
      assert Live(init, i);
    }
  }

  /** A sample with no live generation opens one, or leaves the latch down. */
  lemma FreshSampleTracks(es: seq<Event>)
    requires es != [] && es[|es| - 1].Sample? && LatchTracks(es[..|es| - 1]) && !AnyLive(es[..|es| - 1])
    ensures LatchTracks(es)
  {
    var init := es[..|es| - 1];
    SampleSteps(es);
    KeptWhileOutstanding(init);
    OpensExactly(init, es[|init|].now);
    HighWaterIsCount(init);
    assert es[..|init|] == init;
    forall i | Live(es, i) ensures i == |init| {
      assert 0 <= i < |init| ==> Live(init, i);
    }
    if Opens(init, es[|init|].now) {
      assert Run(es).lagBreachHighWater == Some(AdmitCount(init));
      assert Opened(es, |init|);
    } else {
      assert Run(es).lagBreachHighWater == None;
    }
  }

  lemma {:induction false} LatchAlwaysTracks(es: seq<Event>)
    ensures LatchTracks(es)
  {
    if es != [] {
      var init := es[..|es| - 1];
      LatchAlwaysTracks(init);
      if !es[|es| - 1].Sample? {
        QuietStepTracks(es);
      } else if j :| Live(init, j) {
        LiveSampleTracks(es, j);
      } else {
        FreshSampleTracks(es);
      }
    }
  }

  /** A sample reports event lag exactly when lag exceeds a second now, or an earlier generation is outstanding. */
  lemma LagReportedExactly(es: seq<Event>, now: Duration)
    ensures Sampled(Run(es), now).lagBreachHighWater.Some?
            <==> (Lag(Run(es).pending, now) > ONE_SECOND || AnyLive(es))
  {
    LatchAlwaysTracks(es);
    KeptWhileOutstanding(es);
  }

  /** While latched, the recorded high water lies between the oldest pending sequence and the admission high water. */
  lemma LatchIsBounded(es: seq<Event>, now: Duration)
    ensures var t := Sampled(Run(es), now);
            t.lagBreachHighWater.Some? ==>
              && t.pending != map[]
              && Oldest(t.pending) <= t.lagBreachHighWater.value <= t.admissionHighWater
  {
    LatchAlwaysTracks(es);
    HighWaterIsCount(es);
    if Run(es).lagBreachHighWater.Some? {
      var j :| Opened(es, j) && AdmitCount(es[..j]) == Run(es).lagBreachHighWater.value;
      CountGrows(es, j);
    }
  }
}
