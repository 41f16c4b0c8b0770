/**
 * Merging loses nothing: what a run holds in the end is the sum, least, greatest or first of the runs merged into it.
 */
module Conservation {
  import opened Types
  import opened Contraction
  import opened Entities
  import opened Folds
  import opened Identity
  import opened IdentityProofs
  import opened Sums

  // ----- telemetry of merged runs

  function OrZero<T>(f: T -> Option<nat>): T -> nat { (x: T) => f(x).UnwrapOr(0) }

  /** The clamped sum of what is reported, and nothing if nothing is reported anywhere. */
  ghost predicate IsReportedSum<T>(value: Option<nat>, parts: seq<T>, f: T -> Option<nat>) {
    && (value.None? <==> forall i :: 0 <= i < |parts| ==> f(parts[i]).None?)
    && (value.Some? ==> value.value == Min(Sum(parts, OrZero(f)), U64_MAX))
  }

  lemma {:induction false} NothingReported<T>(parts: seq<T>, f: T -> Option<nat>)
    requires forall i :: 0 <= i < |parts| ==> f(parts[i]).None?
    ensures Sum(parts, OrZero(f)) == 0
  {
    if parts != [] { NothingReported(parts[..|parts| - 1], f); }
  }

  lemma ReportedOfBoth<T>(x: Option<nat>, a: seq<T>, y: Option<nat>, b: seq<T>, f: T -> Option<nat>)
    requires IsReportedSum(x, a, f) && IsReportedSum(y, b, f)
    ensures IsReportedSum(AccumulateReported(x, y), a + b, f)
  {
    SumOfBoth(a, b, OrZero(f));
    if x.None? { NothingReported(a, f); }
    if y.None? { NothingReported(b, f); }
    if x.Some? {
      var i :| 0 <= i < |a| && f(a[i]).Some?;
      assert (a + b)[i] == a[i];
    }
    if y.Some? {
      var i :| 0 <= i < |b| && f(b[i]).Some?;
      assert (a + b)[|a| + i] == b[i];
    }
  }

  function Output(t: Telemetry): nat { t.outputTokens }
  function Input(t: Telemetry): Option<nat> { t.breakdown.input }
  function CachedInput(t: Telemetry): Option<nat> { t.breakdown.cachedInput }
  function CacheWriteInput(t: Telemetry): Option<nat> { t.breakdown.cacheWriteInput }
  function ReasoningOutput(t: Telemetry): Option<nat> { t.breakdown.reasoningOutput }
  function Total(t: Telemetry): Option<nat> { t.breakdown.total }
  function ContextWindow(t: Telemetry): Option<nat> { t.breakdown.contextWindow }
  function Started(t: Telemetry): int { t.startedWallMs }
  function ModelName(t: Telemetry): Option<string> { t.attr.model }
  function Effort(t: Telemetry): Option<string> { t.attr.effort }
  function Sandbox(t: Telemetry): Option<string> { t.attr.sandbox }
  function Turns(t: Telemetry): seq<TurnAttr> { t.perTurn }

  ghost predicate CountersAdd(t: Telemetry, parts: seq<Telemetry>) {
    && t.outputTokens == Min(Sum(parts, Output), U64_MAX)
    && IsReportedSum(t.breakdown.input, parts, Input)
    && IsReportedSum(t.breakdown.cachedInput, parts, CachedInput)
    && IsReportedSum(t.breakdown.cacheWriteInput, parts, CacheWriteInput)
    && IsReportedSum(t.breakdown.reasoningOutput, parts, ReasoningOutput)
    && IsReportedSum(t.breakdown.total, parts, Total)
  }

  ghost predicate GaugesFirst(t: Telemetry, parts: seq<Telemetry>) {
    && IsFirst(t.breakdown.contextWindow, parts, ContextWindow)
    && IsFirst(t.attr.model, parts, ModelName) && IsFirst(t.attr.effort, parts, Effort)
    && IsFirst(t.attr.sandbox, parts, Sandbox)
    && IsMinimum(t.startedWallMs, parts, Started)
  }

  /** The first part's turns as they are, then the changes of attribution in the turns of the others. */
  ghost predicate TurnsFollow(t: Telemetry, parts: seq<Telemetry>) {
    parts != [] && |parts[0].perTurn| <= |Flatten(parts, Turns)|
    && t.perTurn == Changes(Flatten(parts, Turns), |parts[0].perTurn|)
  }

  /** The telemetry of the parts, merged in this order. */
  ghost predicate CombinesTelemetry(t: Telemetry, parts: seq<Telemetry>) {
    CountersAdd(t, parts) && GaugesFirst(t, parts) && TurnsFollow(t, parts)
  }

  lemma ReportedOfOne<T>(x: T, f: T -> Option<nat>)
    requires CounterFits(f(x))
    ensures IsReportedSum(f(x), [x], f)
  {
    SumOfOne(x, OrZero(f));
    assert [x][0] == x;
  }

  lemma FirstOfOne<T, V>(x: T, f: T -> Option<V>)
    ensures IsFirst(f(x), [x], f)
  {
    assert f([x][0]) == f(x);
  }

  lemma UnchangedTurns<V>(s: seq<V>)
    ensures Changes(s, |s|) == s
  {
  }

  lemma OnePart(t: Telemetry)
    requires Fits(t)
    ensures CombinesTelemetry(t, [t])
  {
    SumOfOne(t, Output);
    ReportedOfOne(t, Input);
    ReportedOfOne(t, CachedInput);
    ReportedOfOne(t, CacheWriteInput);
    ReportedOfOne(t, ReasoningOutput);
    ReportedOfOne(t, Total);
    FirstOfOne(t, ContextWindow);
    FirstOfOne(t, ModelName);
    FirstOfOne(t, Effort);
    FirstOfOne(t, Sandbox);
    assert Started([t][0]) == t.startedWallMs;
    FlattenOne(t, Turns);
    UnchangedTurns(t.perTurn);
  }

  lemma CountersOfBoth(t: Telemetry, a: seq<Telemetry>, u: Telemetry, b: seq<Telemetry>)
    requires CountersAdd(t, a) && CountersAdd(u, b)
    ensures CountersAdd(FoldedTelemetry(t, u), a + b)
  {
    SumOfBoth(a, b, Output);
    ReportedOfBoth(t.breakdown.input, a, u.breakdown.input, b, Input);
    ReportedOfBoth(t.breakdown.cachedInput, a, u.breakdown.cachedInput, b, CachedInput);
    ReportedOfBoth(t.breakdown.cacheWriteInput, a, u.breakdown.cacheWriteInput, b, CacheWriteInput);
    ReportedOfBoth(t.breakdown.reasoningOutput, a, u.breakdown.reasoningOutput, b, ReasoningOutput);
    ReportedOfBoth(t.breakdown.total, a, u.breakdown.total, b, Total);
  }

  lemma GaugesOfBoth(t: Telemetry, a: seq<Telemetry>, u: Telemetry, b: seq<Telemetry>)
    requires GaugesFirst(t, a) && GaugesFirst(u, b)
    ensures GaugesFirst(FoldedTelemetry(t, u), a + b)
  {
    FirstOfBoth(t.breakdown.contextWindow, a, u.breakdown.contextWindow, b, ContextWindow);
    FirstOfBoth(t.attr.model, a, u.attr.model, b, ModelName);
    FirstOfBoth(t.attr.effort, a, u.attr.effort, b, Effort);
    FirstOfBoth(t.attr.sandbox, a, u.attr.sandbox, b, Sandbox);
    MinimumOfBoth(t.startedWallMs, a, u.startedWallMs, b, Started);
  }

  // ----- turn attributions

  lemma {:induction false} LastChange(s: seq<TurnAttr>, keep: nat)
    requires keep <= |s|
    ensures Last(Changes(s, keep)) == Last(s)
    decreases |s|
  {
    if |s| > keep {
      var n := |s| - 1;
      LastChange(s[..n], keep);
      if n > 0 && s[n] == s[n - 1] { assert Last(s[..n]) == Some(s[n - 1]); }
    }
  }

  lemma {:induction false} AppendLast(turns: seq<TurnAttr>, more: seq<TurnAttr>, x: TurnAttr)
    ensures AppendTurns(turns, more + [x])
            == (var r := AppendTurns(turns, more); if Last(r) == Some(x) then r else r + [x])
    decreases |more|
  {
    if more == [] {
      assert more + [x] == [x] && [x][1..] == [];
    } else {
      assert (more + [x])[1..] == more[1..] + [x] && (more + [x])[0] == more[0];
      AppendLast(if turns != [] && turns[|turns| - 1] == more[0] then turns else turns + [more[0]], more[1..], x);
    }
  }

  /** Appending the turns `more` to turns that are themselves changes keeps exactly the changes of the whole. */
  lemma {:induction false} AppendedChanges(s: seq<TurnAttr>, keep: nat, more: seq<TurnAttr>)
    requires keep <= |s|
    ensures AppendTurns(Changes(s, keep), more) == Changes(s + more, keep)
    decreases |more|
  {
    if more == [] {
      assert s + more == s;
    } else {
      var n, init, x := |more| - 1, more[..|more| - 1], more[|more| - 1];
      assert more == init + [x] && (s + more)[..|s + more| - 1] == s + init;
      AppendedChanges(s, keep, init);
      AppendLast(Changes(s, keep), init, x);
      LastChange(s + init, keep);
    }
  }

  lemma LastAppended(turns: seq<TurnAttr>, more: seq<TurnAttr>)
    requires more != []
    ensures Last(AppendTurns(turns, more)) == Last(more)
  {
    var n := |more| - 1;
    assert more == more[..n] + [more[n]];
    AppendLast(turns, more[..n], more[n]);
  }

  /** Dropping repeats inside what is appended makes no difference. */
  lemma {:induction false} AppendOnlyChanges(turns: seq<TurnAttr>, s: seq<TurnAttr>, keep: nat)
    requires keep <= |s|
    ensures AppendTurns(turns, Changes(s, keep)) == AppendTurns(turns, s)
    decreases |s|
  {
    if |s| > keep {
      var n := |s| - 1;
      AppendOnlyChanges(turns, s[..n], keep);
      assert s == s[..n] + [s[n]];
      AppendLast(turns, s[..n], s[n]);
      if n > 0 && s[n] == s[n - 1] {
        LastAppended(turns, s[..n]);
        assert Last(s[..n]) == Some(s[n]) && Changes(s, keep) == Changes(s[..n], keep);
      } else {
        AppendLast(turns, Changes(s[..n], keep), s[n]);
      }
    }
  }

  lemma TurnsOfBoth(t: Telemetry, a: seq<Telemetry>, u: Telemetry, b: seq<Telemetry>)
    requires TurnsFollow(t, a) && TurnsFollow(u, b)
    ensures TurnsFollow(FoldedTelemetry(t, u), a + b)
  {
    var x, y := Flatten(a, Turns), Flatten(b, Turns);
    var keep := |a[0].perTurn|;
    assert (a + b)[0] == a[0];
    FlattenBoth(a, b, Turns);
    AppendOnlyChanges(t.perTurn, y, |b[0].perTurn|);
    AppendedChanges(x, keep, y);
  }

  lemma CombinedTelemetry(t: Telemetry, a: seq<Telemetry>, u: Telemetry, b: seq<Telemetry>)
    requires CombinesTelemetry(t, a) && CombinesTelemetry(u, b)
    ensures CombinesTelemetry(FoldedTelemetry(t, u), a + b)
  {
    CountersOfBoth(t, a, u, b);
    GaugesOfBoth(t, a, u, b);
    TurnsOfBoth(t, a, u, b);
  }

  // ----- rate totals

  function Tokens(t: RateTotals): nat { t.outputTokens }
  function Worked(t: RateTotals): nat { Max(t.workingMs, 0) }

  /** Within the range in which totals are stored. */
  predicate InRange(t: RateTotals) { t.outputTokens <= PERSISTED_RATE_TOTAL_MAX && 0 <= t.workingMs <= I64_MAX }

  /** The sums of the parts, clamped to what can be stored; totals that were in range stay there. */
  ghost predicate CombinesTotals(t: RateTotals, parts: seq<RateTotals>) {
    && t.workingMs <= I64_MAX
    && Min(t.outputTokens, PERSISTED_RATE_TOTAL_MAX) == Min(Sum(parts, Tokens), PERSISTED_RATE_TOTAL_MAX)
    && Max(t.workingMs, 0) == Min(Sum(parts, Worked), I64_MAX)
    && ((forall i :: 0 <= i < |parts| ==> InRange(parts[i])) ==> InRange(t))
  }

  lemma OneTotals(t: RateTotals)
    requires t.workingMs <= I64_MAX
    ensures CombinesTotals(t, [t])
  {
    SumOfOne(t, Tokens);
    SumOfOne(t, Worked);
    assert [t][0] == t;
  }

  lemma CombinedTotals(t: RateTotals, a: seq<RateTotals>, u: RateTotals, b: seq<RateTotals>)
    requires CombinesTotals(t, a) && CombinesTotals(u, b)
    ensures CombinesTotals(t.Plus(u), a + b)
  {
    SumOfBoth(a, b, Tokens);
    SumOfBoth(a, b, Worked);
  }

  // ----- lifecycle state

  function Provided(h: RunHistory): Option<int> { h.latestProviderAtMs }

  /** Later by the source's clock, then by the time of observation, then by the source's order. */
  predicate Later(a: Watermark, b: Watermark) {
    if a.sourceAtMs != b.sourceAtMs then a.sourceAtMs > b.sourceAtMs
    else if a.observedAtMs != b.observedAtMs then a.observedAtMs > b.observedAtMs
    else a.sourceOrder > b.sourceOrder
  }

  predicate NoLater(a: Option<Watermark>, b: Option<Watermark>) {
    a.Some? ==> b.Some? && !Later(a.value, b.value)
  }

  /** End and watermark are those of the first part whose watermark no other exceeds. */
  ghost predicate EndsLike(h: RunHistory, parts: seq<RunHistory>, i: nat) {
    && i < |parts| && h.lifecycleWatermark == parts[i].lifecycleWatermark
    && h.nativeSessionEnd == parts[i].nativeSessionEnd
    && (forall j :: 0 <= j < |parts| ==> NoLater(parts[j].lifecycleWatermark, h.lifecycleWatermark))
    && (forall j :: 0 <= j < i ==> !NoLater(h.lifecycleWatermark, parts[j].lifecycleWatermark))
  }

  ghost predicate CombinesHistory(h: RunHistory, parts: seq<RunHistory>) {
    && (h.historyReady <==> exists i :: 0 <= i < |parts| && parts[i].historyReady)
    && IsMaximum(h.latestProviderAtMs, parts, Provided)
    && exists i :: EndsLike(h, parts, i)
  }

  lemma OneHistory(h: RunHistory)
    ensures CombinesHistory(h, [h])
  {
    assert [h][0] == h && Provided([h][0]) == h.latestProviderAtMs;
    assert EndsLike(h, [h], 0);
  }

  lemma LaterIsAbove(a: Option<Watermark>, b: Option<Watermark>)
    ensures NoLater(a, b) <==> !WatermarkAbove(a, b)
  {
  }

  lemma NoLaterIsTransitive(a: Option<Watermark>, b: Option<Watermark>, c: Option<Watermark>)
    ensures NoLater(a, b) && NoLater(b, c) ==> NoLater(a, c)
    ensures NoLater(a, b) || NoLater(b, a)
  {
  }

  lemma EndOfBoth(h: RunHistory, a: seq<RunHistory>, i: nat, k: RunHistory, b: seq<RunHistory>, j: nat)
    requires EndsLike(h, a, i) && EndsLike(k, b, j)
    ensures exists n :: EndsLike(FoldedHistory(h, k), a + b, n)
  {
    var f, wins := FoldedHistory(h, k), WatermarkAbove(k.lifecycleWatermark, h.lifecycleWatermark);
    LaterIsAbove(k.lifecycleWatermark, h.lifecycleWatermark);
    var n := if wins then |a| + j else i;
    forall m | 0 <= m < |a + b| ensures NoLater((a + b)[m].lifecycleWatermark, f.lifecycleWatermark) {
      var w := (a + b)[m].lifecycleWatermark;
      NoLaterIsTransitive(w, h.lifecycleWatermark, k.lifecycleWatermark);
      NoLaterIsTransitive(w, k.lifecycleWatermark, h.lifecycleWatermark);
    }
    forall m | 0 <= m < n ensures !NoLater(f.lifecycleWatermark, (a + b)[m].lifecycleWatermark) {
      NoLaterIsTransitive(k.lifecycleWatermark, (a + b)[m].lifecycleWatermark, h.lifecycleWatermark);
    }
    assert EndsLike(f, a + b, n);
  }

  lemma CombinedHistory(h: RunHistory, a: seq<RunHistory>, k: RunHistory, b: seq<RunHistory>)
    requires CombinesHistory(h, a) && CombinesHistory(k, b)
    ensures CombinesHistory(FoldedHistory(h, k), a + b)
  {
    MaximumOfBoth(h.latestProviderAtMs, a, k.latestProviderAtMs, b, Provided);
    assert FoldedHistory(h, k).latestProviderAtMs == Greater(h.latestProviderAtMs, k.latestProviderAtMs);
    var i :| EndsLike(h, a, i);
    var j :| EndsLike(k, b, j);
    EndOfBoth(h, a, i, k, b, j);
    assert forall n :: 0 <= n < |a| ==> (a + b)[n] == a[n];
    assert forall n :: 0 <= n < |b| ==> (a + b)[|a| + n] == b[n];
  }
}
