/** What merging makes of the state kept beside the runs: the folds give the same result however merges are nested. */
module Folds {
  import opened Types
  import opened Entities

  // ----- turn attributions

  function Last(a: seq<TurnAttr>): Option<TurnAttr> {
    if a == [] then None else Some(a[|a| - 1])
  }

  ghost predicate NoRepeats(a: seq<TurnAttr>) {
    forall i :: 0 <= i < |a| - 1 ==> a[i] != a[i + 1]
  }

  /** Appending keeps what is there and repeats nothing. */
  lemma {:induction false} AppendedTurns(a: seq<TurnAttr>, b: seq<TurnAttr>)
    requires NoRepeats(a)
    ensures a <= AppendTurns(a, b) && NoRepeats(AppendTurns(a, b))
    decreases |b|
  {
    if b != [] {
      if a != [] && a[|a| - 1] == b[0] { AppendedTurns(a, b[1..]); } else { AppendedTurns(a + [b[0]], b[1..]); }
    }
  }

  lemma {:induction false} LastTurn(a: seq<TurnAttr>, b: seq<TurnAttr>)
    ensures Last(AppendTurns(a, b)) == OrElse(Last(b), Last(a))
    decreases |b|
  {
    if b != [] {
      if a != [] && a[|a| - 1] == b[0] { LastTurn(a, b[1..]); } else { LastTurn(a + [b[0]], b[1..]); }
    }
  }

  lemma {:induction false} AppendInTwo(a: seq<TurnAttr>, b: seq<TurnAttr>, c: seq<TurnAttr>)
    ensures AppendTurns(a, b + c) == AppendTurns(AppendTurns(a, b), c)
    decreases |b|
  {
    if b == [] {
      assert b + c == c;
    } else {
      assert (b + c)[1..] == b[1..] + c;
      if a != [] && a[|a| - 1] == b[0] { AppendInTwo(a, b[1..], c); } else { AppendInTwo(a + [b[0]], b[1..], c); }
    }
  }

  lemma {:induction false} RepeatIsSkipped(a: seq<TurnAttr>, b: seq<TurnAttr>, c: seq<TurnAttr>)
    ensures AppendTurns(a, AppendTurns(b, c)) == AppendTurns(a, b + c)
    decreases |c|
  {
    if c == [] {
      assert b + c == b;
    } else {
      var x, rest := c[0], c[1..];
      assert c == [x] + rest;
      assert b + c == b + [x] + rest;
      AppendInTwo(a, b + [x], rest);
      AppendInTwo(a, b, [x]);
      AppendInTwo(a, b, rest);
      if b != [] && b[|b| - 1] == x {
        RepeatIsSkipped(a, b, rest);
        LastTurn(a, b);
        assert AppendTurns(AppendTurns(a, b), [x]) == AppendTurns(a, b);
      } else {
        RepeatIsSkipped(a, b + [x], rest);
      }
    }
  }

  /** Appending is associative. */
  lemma AppendIsAssociative(a: seq<TurnAttr>, b: seq<TurnAttr>, c: seq<TurnAttr>)
    ensures AppendTurns(AppendTurns(a, b), c) == AppendTurns(a, AppendTurns(b, c))
  {
    RepeatIsSkipped(a, b, c);
    AppendInTwo(a, b, c);
  }

  ghost predicate CounterFits(a: Option<nat>) { a.Some? ==> a.value <= U64_MAX }

  lemma ReportedIsAssociative(a: Option<nat>, b: Option<nat>, c: Option<nat>)
    requires CounterFits(a) && CounterFits(b) && CounterFits(c)
    ensures AccumulateReported(AccumulateReported(a, b), c) == AccumulateReported(a, AccumulateReported(b, c))
  {
  }

  /** Every counter is a 64-bit unsigned value. */
  ghost predicate Fits(t: Telemetry) {
    && t.outputTokens <= U64_MAX && CounterFits(t.breakdown.input) && CounterFits(t.breakdown.cachedInput)
       && CounterFits(t.breakdown.cacheWriteInput)
    && CounterFits(t.breakdown.reasoningOutput) && CounterFits(t.breakdown.total)
  }

  /** Merging three runs gives the same telemetry whether the last two, or the first two, are merged first. */
  lemma TelemetryFoldIsAssociative(a: Telemetry, b: Telemetry, c: Telemetry)
    requires Fits(a) && Fits(b) && Fits(c)
    ensures FoldedTelemetry(FoldedTelemetry(a, b), c) == FoldedTelemetry(a, FoldedTelemetry(b, c))
  {
    AppendIsAssociative(a.perTurn, b.perTurn, c.perTurn);
    ReportedIsAssociative(a.breakdown.input, b.breakdown.input, c.breakdown.input);
    ReportedIsAssociative(a.breakdown.cachedInput, b.breakdown.cachedInput, c.breakdown.cachedInput);
    ReportedIsAssociative(a.breakdown.cacheWriteInput, b.breakdown.cacheWriteInput, c.breakdown.cacheWriteInput);
    ReportedIsAssociative(a.breakdown.reasoningOutput, b.breakdown.reasoningOutput, c.breakdown.reasoningOutput);
    ReportedIsAssociative(a.breakdown.total, b.breakdown.total, c.breakdown.total);
  }

  // ----- lifecycle state

  lemma WatermarksAreOrdered(a: Option<Watermark>, b: Option<Watermark>, c: Option<Watermark>)
    ensures WatermarkAbove(a, b) && WatermarkAbove(b, c) ==> WatermarkAbove(a, c)
    ensures !WatermarkAbove(a, b) && !WatermarkAbove(b, c) ==> !WatermarkAbove(a, c)
    ensures a != b ==> WatermarkAbove(a, b) != WatermarkAbove(b, a)
  {
  }

  /** The session end always comes with the greatest watermark, the survivor's on a tie, however merges are nested. */
  lemma HistoryFoldIsAssociative(a: RunHistory, b: RunHistory, c: RunHistory)
    ensures FoldedHistory(FoldedHistory(a, b), c) == FoldedHistory(a, FoldedHistory(b, c))
    ensures var f := FoldedHistory(FoldedHistory(a, b), c);
            && !WatermarkAbove(a.lifecycleWatermark, f.lifecycleWatermark)
            && !WatermarkAbove(b.lifecycleWatermark, f.lifecycleWatermark)
            && !WatermarkAbove(c.lifecycleWatermark, f.lifecycleWatermark)
            && exists h :: h in {a, b, c} && h.lifecycleWatermark == f.lifecycleWatermark
                 && h.nativeSessionEnd == f.nativeSessionEnd
  {
    var x, y, z := a.lifecycleWatermark, b.lifecycleWatermark, c.lifecycleWatermark;
    WatermarksAreOrdered(z, y, x);
    WatermarksAreOrdered(x, y, z);
    WatermarksAreOrdered(y, x, z);
    WatermarksAreOrdered(y, z, x);
    assert a in {a, b, c} && b in {a, b, c} && c in {a, b, c};
  }

  // ----- rate totals

  lemma TotalsFoldIsAssociative(a: RateTotals, b: RateTotals, c: RateTotals)
    ensures a.Plus(b).Plus(c) == a.Plus(b.Plus(c))
  {
  }

  /** A merge counts as saturated exactly when the stored total is not the exact sum. */
  lemma SaturatedExactly(a: RateTotals, b: RateTotals)
    requires a.workingMs <= I64_MAX && b.workingMs <= I64_MAX
    ensures a.Saturates(b) <==> a.Plus(b) != RateTotals(a.outputTokens + b.outputTokens, a.workingMs + b.workingMs)
  {
  }
}
