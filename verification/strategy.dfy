/**
 The moving-average crossover strategy: two trailing simple moving averages of
 the closing prices, an invested/not-invested signal that is 1 exactly where
 the short average lies above the long one, and the position-change column,
 the first difference of the signal.
 */
module Strategy {
  import opened Wrappers
  import opened Series

  /** A look-back period, in rows. */
  type Window = w: int | w >= 1 witness 1

  const DefaultShortWindow: Window := 100
  const DefaultLongWindow: Window := 400

  /** One row of the signals table. Missing averages are pandas' NaN. */
  datatype SignalRow = SignalRow(
    shortMavg: Option<real>,
    longMavg: Option<real>,
    signal: real,
    positions: Option<real>)

  function Max(a: int, b: int): int { if a >= b then a else b }

  /**
   Trailing mean of the `window` closes ending at row i, with a minimum
   number of observations equal to the window: missing until the window fills.
   */
  function WindowMean(closes: seq<real>, window: Window, i: nat): (m: Option<real>)
    requires i < |closes|
    ensures m.Some? <==> i >= window - 1
  {
    if i + 1 >= window then Some(SumRange(closes, i + 1 - window, i + 1) / window as real) else None
  }

  /**
   A defined average lies between any lower and upper bound of the closes in
   its window: the mean of a window never leaves the range of its prices.
   */
  lemma WindowMeanWithinRange(closes: seq<real>, window: Window, i: nat, a: real, b: real)
    requires window - 1 <= i < |closes|
    requires forall k :: i + 1 - window <= k <= i ==> a <= closes[k] <= b
    ensures a <= WindowMean(closes, window, i).value <= b
  {
    var w := window as real;
    var sum := SumRange(closes, i + 1 - window, i + 1);
    SumRangeBounds(closes, i + 1 - window, i + 1, a, b);
    assert w * a <= sum <= w * b;
    assert WindowMean(closes, window, i).value == sum / w;
    assert sum / w * w == sum;
  }

  /**
   The rolling mean column, computed in one pass with a running window sum
   (add the entering close, drop the leaving one).
   */
  method RollingMean(closes: seq<real>, window: Window) returns (means: seq<Option<real>>)
    ensures |means| == |closes|
    ensures forall i :: 0 <= i < |closes| ==> means[i] == WindowMean(closes, window, i)
  {
    means := [];
    var running := 0.0;
    var i := 0;
    while i < |closes|
      invariant 0 <= i <= |closes|
      invariant |means| == i
      invariant forall k :: 0 <= k < i ==> means[k] == WindowMean(closes, window, k)
      invariant running == SumRange(closes, if i >= window then i - window else 0, i)
    {
      running := running + closes[i];
      if i >= window {
        SumRangeDropFirst(closes, i - window, i + 1);
        running := running - closes[i - window];
      }
      var m: Option<real> := None;
      if i + 1 >= window {
        m := Some(running / window as real);
      }
      means := means + [m];
      i := i + 1;
    }
  }

  /** Whether a row is invested: both averages defined and short above long. */
  predicate Above(shortMavg: Option<real>, longMavg: Option<real>)
  {
    shortMavg.Some? && longMavg.Some? && shortMavg.value > longMavg.value
  }

  /**
   The signal column starts at 0 everywhere and is set to 1 where the short
   average compares greater than the long one; a comparison with NaN is false.
   */
  function CrossSignal(shortMavg: Option<real>, longMavg: Option<real>): (s: real)
    ensures s == 0.0 || s == 1.0
    ensures s == 1.0 <==> Above(shortMavg, longMavg)
  {
    if Above(shortMavg, longMavg) then 1.0 else 0.0
  }

  /** The rolling mean column: one trailing window mean per row. */
  function MeanColumn(closes: seq<real>, window: Window): (means: seq<Option<real>>)
    ensures |means| == |closes|
    ensures forall i :: 0 <= i < |closes| ==> means[i] == WindowMean(closes, window, i)
  {
    seq(|closes|, i requires 0 <= i < |closes| => WindowMean(closes, window, i))
  }

  /** Every signal is 0 or 1, and 1 exactly on the rows that are invested. */
  predicate SignalsFollowAverages(rows: seq<SignalRow>)
  {
    forall i :: 0 <= i < |rows| ==>
      && (rows[i].signal == 0.0 || rows[i].signal == 1.0)
      && (rows[i].signal == 1.0 <==> Above(rows[i].shortMavg, rows[i].longMavg))
  }

  /** The position column is the first difference of the signal column. */
  predicate PositionsAreSignalChanges(rows: seq<SignalRow>)
  {
    && (|rows| > 0 ==> rows[0].positions == None)
    && forall i {:trigger rows[i].positions} :: 1 <= i < |rows| ==>
         rows[i].positions == Some(rows[i].signal - rows[i - 1].signal)
  }

  /**
   The signals table from its two average columns: the signal, and the
   position change as the first difference of the signal.
   */
  function Assemble(shortMavg: seq<Option<real>>, longMavg: seq<Option<real>>): (rows: seq<SignalRow>)
    requires |shortMavg| == |longMavg|
    ensures |rows| == |shortMavg|
    ensures forall i :: 0 <= i < |rows| ==> rows[i].shortMavg == shortMavg[i] && rows[i].longMavg == longMavg[i]
    ensures SignalsFollowAverages(rows)
    ensures PositionsAreSignalChanges(rows)
  {
    var signal := seq(|shortMavg|, i requires 0 <= i < |shortMavg| => CrossSignal(shortMavg[i], longMavg[i]));
    var positions := Diff(signal);
    seq(|shortMavg|, i requires 0 <= i < |shortMavg| =>
      SignalRow(shortMavg[i], longMavg[i], signal[i], positions[i]))
  }

  /** The signals table built from the closes and the two windows. */
  function SignalTable(closes: seq<real>, shortWindow: Window, longWindow: Window): (rows: seq<SignalRow>)
    ensures |rows| == |closes|
    ensures forall i :: 0 <= i < |rows| ==>
      rows[i].shortMavg == WindowMean(closes, shortWindow, i) &&
      rows[i].longMavg == WindowMean(closes, longWindow, i)
    ensures SignalsFollowAverages(rows)
    ensures PositionsAreSignalChanges(rows)
  {
    Assemble(MeanColumn(closes, shortWindow), MeanColumn(closes, longWindow))
  }

  /** `generate_signals`: the table computed with running-sum rolling means. */
  method GenerateSignals(closes: seq<real>, shortWindow: Window, longWindow: Window)
    returns (rows: seq<SignalRow>)
    ensures rows == SignalTable(closes, shortWindow, longWindow)
  {
    var shortMavg := RollingMean(closes, shortWindow);
    var longMavg := RollingMean(closes, longWindow);
    assert shortMavg == MeanColumn(closes, shortWindow);
    assert longMavg == MeanColumn(closes, longWindow);
    rows := Assemble(shortMavg, longMavg);
  }

  /**
   The first row is never invested: both averages are defined there only when
   both windows are 1, and then both equal the first close.
   */
  lemma FirstSignalIsFlat(closes: seq<real>, shortWindow: Window, longWindow: Window)
    requires |closes| > 0
    ensures SignalTable(closes, shortWindow, longWindow)[0].signal == 0.0
  {
    var rows := SignalTable(closes, shortWindow, longWindow);
    if shortWindow == 1 && longWindow == 1 {
      assert rows[0].shortMavg == rows[0].longMavg;
    }
  }

  /** No row is invested before both windows have filled. */
  lemma FlatBeforeWarmup(closes: seq<real>, shortWindow: Window, longWindow: Window, i: nat)
    requires i < |closes| && i < Max(shortWindow, longWindow) - 1
    ensures SignalTable(closes, shortWindow, longWindow)[i].signal == 0.0
  {
  }

  /** A buy (+1) is an upward crossing and a sell (-1) a downward one. */
  lemma ChangesAreCrossings(closes: seq<real>, shortWindow: Window, longWindow: Window, i: nat)
    requires 1 <= i < |closes|
    ensures var rows := SignalTable(closes, shortWindow, longWindow);
      && rows[i].positions.Some?
      && (rows[i].positions.value == 1.0 || rows[i].positions.value == 0.0 || rows[i].positions.value == -1.0)
      && (rows[i].positions == Some(1.0) <==>
            Above(rows[i].shortMavg, rows[i].longMavg) && !Above(rows[i - 1].shortMavg, rows[i - 1].longMavg))
      && (rows[i].positions == Some(-1.0) <==>
            !Above(rows[i].shortMavg, rows[i].longMavg) && Above(rows[i - 1].shortMavg, rows[i - 1].longMavg))
  {
  }

  /** The position-change column, as a column of its own. */
  function PositionChanges(rows: seq<SignalRow>): (d: seq<Option<real>>)
    ensures |d| == |rows|
  {
    seq(|rows|, i requires 0 <= i < |rows| => rows[i].positions)
  }

  /**
   Telescoping: in any table whose position column is the first difference of
   its signal column, the signal at row i is the first signal plus the
   position changes of rows 1..i.
   */
  lemma {:induction false} ChangesTelescope(rows: seq<SignalRow>, i: nat)
    requires i < |rows|
    requires PositionsAreSignalChanges(rows)
    ensures rows[i].signal == rows[0].signal + Accumulate(PositionChanges(rows), i)
  {
    if i > 0 {
      ChangesTelescope(rows, i - 1);
    }
  }

  /**
   The signal at row i of the strategy's table is the sum of the position
   changes up to row i, since the first signal is 0.
   */
  lemma SignalIsAccumulatedChanges(closes: seq<real>, shortWindow: Window, longWindow: Window, i: nat)
    requires i < |closes|
    ensures var rows := SignalTable(closes, shortWindow, longWindow);
      rows[i].signal == Accumulate(PositionChanges(rows), i)
  {
    ChangesTelescope(SignalTable(closes, shortWindow, longWindow), i);
    FirstSignalIsFlat(closes, shortWindow, longWindow);
  }
}
