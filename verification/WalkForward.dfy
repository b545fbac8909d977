/** Walk-forward windows, purging and embargo. */
module WalkForward {
  import opened Options
  import opened Vectors

  datatype Window = Window(index: nat, trainStart: Instant, trainEnd: Instant, validateStart: Instant,
      validateEnd: Instant, testStart: Instant, testEnd: Instant)

  /** The fold whose training starts at `cursor`. */
  function WindowAt(cursor: Instant, index: nat, train: real, validate: real, test: real): Window {
    Window(index, cursor, cursor + train, cursor + train, cursor + train + validate, cursor + train + validate,
           cursor + train + validate + test)
  }

  /** Train, validate and test follow one another without a gap, each for its own duration. */
  lemma SpansFollow(cursor: Instant, index: nat, train: real, validate: real, test: real)
    ensures var w := WindowAt(cursor, index, train, validate, test);
      && w.trainStart == cursor && w.trainEnd - w.trainStart == train
      && w.validateStart == w.trainEnd && w.validateEnd - w.validateStart == validate
      && w.testStart == w.validateEnd && w.testEnd - w.testStart == test
  {
  }

  function Shift(index: nat, step: real): real { index as real * step }

  /** Consecutive folds, each one step later, all that fit before `end`; none for a bad duration. */
  method RollingWindows(start: Instant, end: Instant, train: real, validate: real, test: real, step: real)
    returns (windows: Option<seq<Window>>)
    ensures windows.None? <==> train <= 0.0 || validate <= 0.0 || test <= 0.0 || step <= 0.0
    ensures windows.Some? ==>
      forall i | 0 <= i < |windows.value| ::
        windows.value[i] == WindowAt(start + Shift(i, step), i, train, validate, test)
    ensures windows.Some? ==> forall i: nat :: i < |windows.value| <==>
      start + Shift(i, step) + train + validate + test <= end
  {
    if train <= 0.0 || validate <= 0.0 || test <= 0.0 || step <= 0.0 {
      return None;
    }
    var folds: seq<Window> := [];
    var cursor, index := start, 0;
    ghost var limit := FoldLimit(start, end, train + validate + test, step);
    ShiftStarts(step);
    while cursor + train + validate + test <= end
      invariant index == |folds| && cursor == start + Shift(index, step)
      invariant forall i | 0 <= i < index :: folds[i] == WindowAt(start + Shift(i, step), i, train, validate, test)
      invariant forall i: nat | i < index :: start + Shift(i, step) + train + validate + test <= end
      decreases limit - index
    {
      hide Shift;
      BeforeLimit(start, end, train + validate + test, step, limit, index);
      folds := folds + [WindowAt(cursor, index, train, validate, test)];
      ShiftAdvances(index, step);
      cursor := cursor + step;
      index := index + 1;
    }
    forall i: nat | i >= index ensures start + Shift(i, step) + train + validate + test > end {
      ShiftIsMonotone(index, i, step);
    }
    windows := Some(folds);
  }

  lemma ShiftStarts(step: real)
    ensures Shift(0, step) == 0.0
  {
  }

  lemma ShiftAdvances(i: nat, step: real)
    ensures Shift(i + 1, step) == Shift(i, step) + step
  {
  }

  lemma ShiftIsMonotone(i: nat, j: nat, step: real)
    requires i <= j && step > 0.0
    ensures Shift(i, step) <= Shift(j, step)
  {
    assert (j - i) as real * step >= 0.0;
  }

  /** A bound on how many folds can fit. */
  ghost function FoldLimit(start: Instant, end: Instant, span: real, step: real): int
    requires step > 0.0
  {
    ((end - start - span) / step).Floor + 1
  }

  lemma BeforeLimit(start: Instant, end: Instant, span: real, step: real, limit: int, i: nat)
    requires step > 0.0 && limit == FoldLimit(start, end, span, step) && start + Shift(i, step) + span <= end
    ensures i < limit
  {
    var room := (end - start - span) / step;
    assert room * step == end - start - span;
    ScaleOrder(i as real, room, step);
  }

  lemma ScaleOrder(a: real, b: real, k: real)
    requires k > 0.0 && a * k <= b * k
    ensures a <= b
  {
    if a > b { ProductPositive(a - b, k); }
  }

  // ---------------------------------------------------------------- purging

  datatype Span = Span(start: Instant, end: Instant)

  /** Observation `ts` is in range, its label does not overlap the test range, and it is not embargoed. */
  predicate Survives(ts: Instant, train: Span, test: Span, horizon: real, embargo: real) {
    && train.start <= ts < train.end
    && !(ts < test.end && ts + horizon > test.start)
    && !(test.end <= ts < test.end + embargo)
  }

  ghost predicate Ascending(s: seq<nat>) { forall i, j | 0 <= i < j < |s| :: s[i] < s[j] }

  /** Exactly the surviving indices, in order; none for a negative horizon or embargo. */
  method PurgeIndices(timestamps: seq<Instant>, train: Span, test: Span, horizon: real,
      embargo: real) returns (kept: Option<seq<nat>>)
    ensures kept.None? <==> horizon < 0.0 || embargo < 0.0
    ensures kept.Some? ==> Ascending(kept.value)
    ensures kept.Some? ==>
      forall i: nat :: i in kept.value <==> i < |timestamps| && Survives(timestamps[i], train, test, horizon, embargo)
  {
    if horizon < 0.0 || embargo < 0.0 {
      return None;
    }
    var embargoEnd := test.end + embargo;
    var indices: seq<nat> := [];
    for i := 0 to |timestamps|
      invariant Ascending(indices) && forall k | 0 <= k < |indices| :: indices[k] < i
      invariant forall k: nat :: k in indices <==> k < i && Survives(timestamps[k], train, test, horizon, embargo)
    {
      var ts := timestamps[i];
      if !(train.start <= ts < train.end) {
        continue;
      }
      var labelEnd := ts + horizon;
      var overlapsTest := ts < test.end && labelEnd > test.start;
      var insideEmbargo := test.end <= ts < embargoEnd;
      if overlapsTest || insideEmbargo {
        continue;
      }
      indices := indices + [i];
    }
    kept := Some(indices);
  }

  /** One fold's purged train and validate indices, and its test indices. */
  method SplitIndices(timestamps: seq<Instant>, w: Window, horizon: real, embargo: real)
    returns (split: Option<(seq<nat>, seq<nat>, seq<nat>)>)
    ensures split.None? <==> horizon < 0.0 || embargo < 0.0
    ensures split.Some? ==> IsSplit(timestamps, w, horizon, embargo, split.value.0, split.value.1, split.value.2)
  {
    var testSpan := Span(w.testStart, w.testEnd);
    var train := PurgeIndices(timestamps, Span(w.trainStart, w.trainEnd), testSpan, horizon, embargo);
    var validate := PurgeIndices(timestamps, Span(w.validateStart, w.validateEnd), testSpan, horizon, embargo);
    if train.None? || validate.None? {
      return None;
    }
    var test: seq<nat> := [];
    for i := 0 to |timestamps|
      invariant Ascending(test) && forall k | 0 <= k < |test| :: test[k] < i
      invariant forall k: nat :: k in test <==> k < i && w.testStart <= timestamps[k] < w.testEnd
    {
      if w.testStart <= timestamps[i] < w.testEnd {
        test := test + [i];
      }
    }
    split := Some((train.value, validate.value, test));
  }

  ghost predicate IsSplit(timestamps: seq<Instant>, w: Window, horizon: real, embargo: real, train: seq<nat>,
      validate: seq<nat>, test: seq<nat>) {
    && Ascending(train) && Ascending(validate) && Ascending(test)
    && (forall i: nat :: i in train <==>
          i < |timestamps|
          && Survives(timestamps[i], Span(w.trainStart, w.trainEnd), Span(w.testStart, w.testEnd), horizon, embargo))
    && (forall i: nat :: i in validate <==>
          i < |timestamps|
          && Survives(timestamps[i], Span(w.validateStart, w.validateEnd), Span(w.testStart, w.testEnd), horizon,
                      embargo))
    && (forall i: nat :: i in test <==> i < |timestamps| && w.testStart <= timestamps[i] < w.testEnd)
  }

  /** The label of an observation runs from its moment to its horizon. */
  predicate Covers(ts: Instant, horizon: real, t: Instant) { ts <= t <= ts + horizon }

  predicate Inside(t: Instant, range: Span) { range.start < t < range.end }

  /** The label of an observation covers an instant inside a range. */
  ghost predicate Leaks(ts: Instant, horizon: real, range: Span) {
    exists t: Instant :: Covers(ts, horizon, t) && Inside(t, range)
  }

  lemma LeaksExactlyWhen(ts: Instant, horizon: real, range: Span)
    requires horizon >= 0.0 && range.start < range.end
    ensures Leaks(ts, horizon, range) <==> ts < range.end && ts + horizon > range.start
  {
    if ts < range.end && ts + horizon > range.start {
      var t := if ts > range.start then ts else (range.start + Min(ts + horizon, range.end)) / 2.0;
      assert Covers(ts, horizon, t) && Inside(t, range);
    }
  }

  function TestSpan(cursor: Instant, spans: (real, real, real)): Span {
    Span(cursor + spans.0 + spans.1, cursor + spans.0 + spans.1 + spans.2)
  }

  /** In every fold of every rolling schedule, whatever the timestamps: the three index lists are
      pairwise disjoint, no label of a kept observation covers an instant inside the test window, and so
      none covers a test observation but one at the very instant the window opens. */
  lemma NoLeakIntoTest(timestamps: seq<Instant>, cursor: Instant, index: nat, spans: (real, real, real),
      horizon: real, embargo: real, train: seq<nat>, validate: seq<nat>, test: seq<nat>)
    requires spans.0 > 0.0 && spans.1 > 0.0 && spans.2 > 0.0 && horizon >= 0.0
    requires IsSplit(timestamps, WindowAt(cursor, index, spans.0, spans.1, spans.2), horizon, embargo, train, validate,
                     test)
    ensures forall i | i in train :: i !in validate && i !in test
    ensures forall i | i in validate :: i !in test
    ensures forall i | i in train || i in validate :: !Leaks(timestamps[i], horizon, TestSpan(cursor, spans))
    ensures forall i, j | (i in train || i in validate) && j in test && Covers(timestamps[i], horizon, timestamps[j]) ::
      timestamps[j] == TestSpan(cursor, spans).start
  {
    var range := TestSpan(cursor, spans);
    forall i | i in train || i in validate ensures !Leaks(timestamps[i], horizon, range) {
      LeaksExactlyWhen(timestamps[i], horizon, range);
    }
    forall i, j | (i in train || i in validate) && j in test && Covers(timestamps[i], horizon, timestamps[j])
      ensures timestamps[j] == range.start
    {
      assert !Leaks(timestamps[i], horizon, range) && !Inside(timestamps[j], range);
    }
  }

  /** Purging loses nothing it need not: an observation of the training range is dropped exactly when
      its label covers an instant inside the test window. The embargo never drops one, because a
      training range ends before its test window. */
  lemma PurgeIsExact(timestamps: seq<Instant>, cursor: Instant, index: nat, spans: (real, real, real), horizon: real,
      embargo: real, train: seq<nat>, validate: seq<nat>, test: seq<nat>, i: nat)
    requires spans.0 > 0.0 && spans.1 > 0.0 && spans.2 > 0.0 && horizon >= 0.0 && i < |timestamps|
    requires IsSplit(timestamps, WindowAt(cursor, index, spans.0, spans.1, spans.2), horizon, embargo, train, validate,
                     test)
    requires cursor <= timestamps[i] < cursor + spans.0
    ensures i in train <==> !Leaks(timestamps[i], horizon, TestSpan(cursor, spans))
  {
    var w := WindowAt(cursor, index, spans.0, spans.1, spans.2);
    assert i in train <==>
      Survives(timestamps[i], Span(w.trainStart, w.trainEnd), Span(w.testStart, w.testEnd), horizon, embargo);
    LeaksExactlyWhen(timestamps[i], horizon, TestSpan(cursor, spans));
  }

  /** Against any ranges an observation survives exactly when it lies in the training range, its label covers no
      instant inside the test range, and it does not start within the embargo after it. */
  lemma SurvivesExactlyWhen(ts: Instant, train: Span, test: Span, horizon: real, embargo: real)
    requires horizon >= 0.0 && test.start < test.end
    ensures Survives(ts, train, test, horizon, embargo) <==>
      && ts >= train.start && ts < train.end
      && !Leaks(ts, horizon, test)
      && (ts < test.end || ts >= test.end + embargo)
  {
    LeaksExactlyWhen(ts, horizon, test);
    hide Leaks;
  }
}
