/** The lock limits of a replay (app/trading/application/backtest_replay.py:194-216): the losing
    streak and the drawdown the risk gate is told, how long a limit has been crossed, and when both
    start over, all read off the bars, curve and trades on record. */
module ReplayLocks {
  import opened Wrappers
  import opened BacktestFill
  import opened ReplaySpec
  import opened ReplayProperties
  import opened ReplayRuns
  import opened ReplayLedger

  /** What is on record when a bar is marked: its time, the equity, and the trades closed by then. */
  datatype Point = Point(time: Time, equity: real, trades: seq<TradeRecord>)

  function PointAt(cfg: Config, candles: seq<Candle>, i: nat): Point
    requires 0 <= cfg.warmup <= i < |candles|
  {
    match AtMark(cfg, candles, i)
    case Ok(m) => Point(candles[i].closeTime, Equity(m, candles[i].close), m.trades)
    case Err(_) => Point(candles[i].closeTime, 0.0, [])
  }

  /** The bars of a replay, from the first one evaluated. */
  function Points(cfg: Config, candles: seq<Candle>): (points: seq<Point>)
    requires 0 <= cfg.warmup <= |candles|
    ensures |points| == |candles| - cfg.warmup
    ensures forall i :: cfg.warmup <= i < |candles| ==> points[i - cfg.warmup] == PointAt(cfg, candles, i)
  {
    seq(|candles| - cfg.warmup, k requires 0 <= k < |candles| - cfg.warmup => PointAt(cfg, candles, cfg.warmup + k))
  }

  // ----- the measures and the timer, from the record -----
  // Measures that start over at bar f - 1 count from what is on record there; f = 0 is the beginning.

  /** Length of the run of losing trades a list ends with. */
  function TrailingLosses(trades: seq<TradeRecord>): nat {
    if trades == [] || trades[|trades| - 1].realizedPnl >= 0.0 then 0
    else 1 + TrailingLosses(trades[..|trades| - 1])
  }

  function TradesBefore(points: seq<Point>, f: nat): nat
    requires f <= |points|
  {
    if f == 0 then 0 else |points[f - 1].trades|
  }

  /** The losing streak of the trades closed since the measures started over. */
  function LossesSince(trades: seq<TradeRecord>, points: seq<Point>, f: nat): nat
    requires f <= |points|
  {
    var known := TradesBefore(points, f);
    if known <= |trades| then TrailingLosses(trades[known..]) else 0
  }

  /** The highest equity of bars f - 1 to n - 1, and at least zero if they never started over. */
  function Top(points: seq<Point>, f: nat, n: nat): real
    requires f <= n <= |points|
  {
    if n == 0 then 0.0
    else if n == f then points[n - 1].equity
    else MaxReal(Top(points, f, n - 1), points[n - 1].equity)
  }

  predicate Crossed(cfg: Config, points: seq<Point>, f: nat, i: nat)
    requires f <= i < |points|
  {
    var top := Top(points, f, i + 1);
    || LossesSince(points[i].trades, points, f) > cfg.streakLimit
    || (top > 0.0 && (top - points[i].equity) / top > cfg.drawdownLimit)
  }

  predicate CrossedFrom(cfg: Config, points: seq<Point>, f: nat, k: nat, n: nat)
    requires f <= k <= n <= |points|
  {
    forall j :: k <= j < n ==> Crossed(cfg, points, f, j)
  }

  /** Where the unbroken run of crossed bars before bar `n` began; `n` if there is none. */
  function StreakStart(cfg: Config, points: seq<Point>, f: nat, n: nat): (k: nat)
    requires f <= n <= |points|
    ensures f <= k <= n && CrossedFrom(cfg, points, f, k, n)
    ensures k > f ==> !Crossed(cfg, points, f, k - 1)
  {
    if n == f || !Crossed(cfg, points, f, n - 1) then n else StreakStart(cfg, points, f, n - 1)
  }

  /** A limit has been crossed without a break for the release time when bar `i` is marked. */
  predicate Released(cfg: Config, points: seq<Point>, f: nat, i: nat)
    requires f <= i < |points|
  {
    && cfg.lockReleaseDays.Some? && Crossed(cfg, points, f, i)
    && var k := StreakStart(cfg, points, f, i);
    && k < i && points[i].time - points[k].time >= cfg.lockReleaseDays.value * SECONDS_PER_DAY
  }

  /** The bar after the last release before bar `n`; 0 if there was none. */
  function Restart(cfg: Config, points: seq<Point>, n: nat): (f: nat)
    requires n <= |points|
    ensures f <= n
  {
    if n == 0 then 0
    else
      var f := Restart(cfg, points, n - 1);
      if Released(cfg, points, f, n - 1) then n else f
  }

  // ----- what these mean -----

  lemma {:induction false} TopIsHighest(points: seq<Point>, f: nat, n: nat)
    requires f <= n <= |points|
    ensures forall j :: 0 <= j < n && f - 1 <= j ==> points[j].equity <= Top(points, f, n)
    ensures (f == 0 && Top(points, f, n) == 0.0)
            || exists j :: 0 <= j < n && f - 1 <= j && points[j].equity == Top(points, f, n)
    ensures f == 0 ==> Top(points, f, n) >= 0.0
  {
    if n > f {
      TopIsHighest(points, f, n - 1);
    }
    if n > 0 && Top(points, f, n) == points[n - 1].equity {
    }
  }

  /** A measure starts over exactly at the bars where a limit has been crossed, at every bar since
      some earlier one that lies the release time back. */
  lemma ReleasedExactly(cfg: Config, points: seq<Point>, f: nat, i: nat)
    requires f <= i < |points| && forall a, b :: 0 <= a <= b < |points| ==> points[a].time <= points[b].time
    ensures Released(cfg, points, f, i) <==>
            && cfg.lockReleaseDays.Some?
            && exists k :: && f <= k < i && CrossedFrom(cfg, points, f, k, i + 1)
                           && points[i].time - points[k].time >= cfg.lockReleaseDays.value * SECONDS_PER_DAY
  {
    hide Crossed;
    forall k | f <= k < i && CrossedFrom(cfg, points, f, k, i)
      ensures StreakStart(cfg, points, f, i) <= k
    {
    }
  }

  lemma {:induction false} RestartIsLastRelease(cfg: Config, points: seq<Point>, n: nat)
    requires n <= |points|
    ensures var f := Restart(cfg, points, n);
            && (f > 0 ==> Released(cfg, points, Restart(cfg, points, f - 1), f - 1))
            && (cfg.lockReleaseDays.None? ==> f == 0)
            && forall j :: f <= j < n ==> Restart(cfg, points, j) == f && !Released(cfg, points, f, j)
  {
    hide Restart, Released;
    if n > 0 {
      RestartIsLastRelease(cfg, points, n - 1);
      NextRestart(cfg, points, n);
    }
  }

  lemma NextRestart(cfg: Config, points: seq<Point>, n: nat)
    requires 0 < n <= |points|
    ensures var f := Restart(cfg, points, n - 1);
            if Released(cfg, points, f, n - 1) then Restart(cfg, points, n) == n && cfg.lockReleaseDays.Some?
            else Restart(cfg, points, n) == f
  {
    hide Crossed, StreakStart;
  }

  // ----- the state agrees -----

  predicate Matches(cfg: Config, s: State, points: seq<Point>, n: nat)
    requires n <= |points|
  {
    var f := Restart(cfg, points, n);
    var k := StreakStart(cfg, points, f, n);
    && s.lockSince == (if cfg.lockReleaseDays.Some? && k < n then Some(points[k].time) else None)
    && TradesBefore(points, f) <= |s.trades| && s.consecutiveLosses == LossesSince(s.trades, points, f)
    && s.peakEquity == Top(points, f, n)
  }

  lemma LossesAfterClosing(s: State, t: State, known: nat)
    requires s.trades <= t.trades && |t.trades| == |s.trades| + 1 && known <= |s.trades|
    ensures TrailingLosses(t.trades[known..]) ==
            if t.trades[|s.trades|].realizedPnl < 0.0 then TrailingLosses(s.trades[known..]) + 1 else 0
  {
    var later := t.trades[known..];
    assert later[..|later| - 1] == s.trades[known..];
  }

  lemma ProbesKeepMatch(cfg: Config, s: State, probes: seq<Bar>, t: State, points: seq<Point>, n: nat)
    requires n <= |points| && ProbedTo(cfg, s, probes, t) && Matches(cfg, s, points, n)
    ensures Matches(cfg, t, points, n) && s.trades <= t.trades
  {
    if t.trades != s.trades {
      LossesAfterClosing(s, t, TradesBefore(points, Restart(cfg, points, n)));
    }
  }

  lemma ActingKeepsMatch(cfg: Config, s: State, now: Time, t: State, points: seq<Point>, n: nat)
    requires n <= |points| && ActedTo(cfg, s, now, t) && Matches(cfg, s, points, n)
    ensures Matches(cfg, t, points, n)
  {
    if t.trades != s.trades {
      LossesAfterClosing(s, t, TradesBefore(points, Restart(cfg, points, n)));
    }
  }

  /** How one more bar moves the timer and the measures. */
  lemma NextPoint(cfg: Config, points: seq<Point>, n: nat)
    requires n < |points|
    ensures var f := Restart(cfg, points, n);
            && Top(points, f, n + 1) == MaxReal(Top(points, f, n), points[n].equity)
            && (if Released(cfg, points, f, n) then
                  && Restart(cfg, points, n + 1) == n + 1 && StreakStart(cfg, points, n + 1, n + 1) == n + 1
                  && Top(points, n + 1, n + 1) == points[n].equity && TradesBefore(points, n + 1) == |points[n].trades|
                else
                  && Restart(cfg, points, n + 1) == f
                  && StreakStart(cfg, points, f, n + 1) ==
                     if Crossed(cfg, points, f, n) then StreakStart(cfg, points, f, n) else n + 1)
  {
    hide Crossed, LossesSince;
  }

  lemma ReleaseMatches(cfg: Config, s: State, points: seq<Point>, n: nat)
    requires n < |points| && Matches(cfg, s, points, n) && points[n].trades == s.trades && cfg.lockReleaseDays.Some?
    ensures var t := s.(peakEquity := MaxReal(s.peakEquity, points[n].equity));
            Matches(cfg, ReleaseExpiredLock(cfg, t, points[n].time, points[n].equity,
                                            cfg.lockReleaseDays.value * SECONDS_PER_DAY), points, n + 1)
  {
    hide Restart, StreakStart, Top, TradesBefore, MaxReal;
    NextPoint(cfg, points, n);
    assert s.trades[|s.trades|..] == [];
  }

  lemma NeverReleased(cfg: Config, s: State, points: seq<Point>, n: nat)
    requires n < |points| && Matches(cfg, s, points, n) && cfg.lockReleaseDays.None?
    ensures Matches(cfg, s.(peakEquity := MaxReal(s.peakEquity, points[n].equity)), points, n + 1)
  {
    hide Crossed, StreakStart, Top, TradesBefore, LossesSince, MaxReal;
    NextPoint(cfg, points, n);
  }

  lemma MarkMatches(cfg: Config, s: State, candle: Candle, points: seq<Point>, n: nat)
    requires n < |points| && Matches(cfg, s, points, n)
    requires points[n] == Point(candle.closeTime, Equity(s, candle.close), s.trades)
    ensures Matches(cfg, Mark(cfg, s, candle), points, n + 1)
  {
    hide Equity, Restart, StreakStart, Top, LossesSince, TradesBefore, ReleaseExpiredLock, NoteWindows, MaxReal;
    var equity := Equity(s, candle.close);
    var marked := s.(curve := s.curve + [(candle.closeTime, equity)], peakEquity := MaxReal(s.peakEquity, equity));
    var lengthened := s.(curve := marked.curve);
    if cfg.lockReleaseDays.None? {
      NeverReleased(cfg, lengthened, points, n);
      WindowsAreMeasures(marked, candle.closeTime, equity);
    } else {
      ReleaseMatches(cfg, lengthened, points, n);
      WindowsAreMeasures(ReleaseExpiredLock(cfg, marked, candle.closeTime, equity,
            cfg.lockReleaseDays.value * SECONDS_PER_DAY), candle.closeTime, equity);
    }
  }

  lemma InitialMatches(cfg: Config, points: seq<Point>)
    ensures Matches(cfg, Initial(cfg.initialEquity), points, 0)
  {
  }

  lemma BarMatches(cfg: Config, candles: seq<Candle>, i: nat)
    requires 0 <= cfg.warmup <= i < |candles| && StateAfter(cfg, candles, i + 1).Ok? && StateAfter(cfg, candles, i).Ok?
    requires Matches(cfg, StateAfter(cfg, candles, i).value, Points(cfg, candles), i - cfg.warmup)
    ensures Matches(cfg, StateAfter(cfg, candles, i + 1).value, Points(cfg, candles), i + 1 - cfg.warmup)
  {
    hide EvaluateBar, RunProbes, Probes, Mark, Sound, ProbedTo, ActedTo, Matches, StateAfter, Equity;
    LastBar(cfg, candles, i + 1);
    var s := StateAfter(cfg, candles, i).value;
    ReplayIsSound(cfg, candles, i);
    BarIsSound(cfg, s, candles, i);
    var m := RunProbes(cfg, s, Probes(cfg, candles[i])).value;
    var n := i - cfg.warmup;
    ProbesKeepMatch(cfg, s, Probes(cfg, candles[i]), m, Points(cfg, candles), n);
    MarkMatches(cfg, m, candles[i], Points(cfg, candles), n);
    ActingKeepsMatch(cfg, Mark(cfg, m, candles[i]), candles[i].closeTime, StateAfter(cfg, candles, i + 1).value,
          Points(cfg, candles), n + 1);
  }

  /** What the gate is told, from the record alone: the losing streak is that of the trades closed
      since the last release, the peak the highest equity since then, and the timer runs from the
      first bar of the unbroken run of bars at which a limit was crossed. */
  lemma {:induction false} RiskMeasuresMatchHistory(cfg: Config, candles: seq<Candle>, n: nat)
    requires 0 <= cfg.warmup <= n <= |candles|
    requires StateAfter(cfg, candles, n).Ok?
    ensures Matches(cfg, StateAfter(cfg, candles, n).value, Points(cfg, candles), n - cfg.warmup)
  {
    hide StateAfter, EvaluateBar, Matches, Initial, Points;
    if n == cfg.warmup {
      FirstState(cfg, candles);
      InitialMatches(cfg, Points(cfg, candles));
    } else {
      LastBar(cfg, candles, n);
      RiskMeasuresMatchHistory(cfg, candles, n - 1);
      BarMatches(cfg, candles, n - 1);
    }
  }

  /** The record the measures are read off is the curve and the trades of the replay. */
  lemma {:induction false} PointsAreRecorded(cfg: Config, candles: seq<Candle>, n: nat)
    requires 0 <= cfg.warmup <= n <= |candles|
    requires StateAfter(cfg, candles, n).Ok?
    ensures var (s, points) := (StateAfter(cfg, candles, n).value, Points(cfg, candles));
            && |s.curve| == n - cfg.warmup
            && forall j :: 0 <= j < n - cfg.warmup ==>
                 s.curve[j] == (points[j].time, points[j].equity) && points[j].trades <= s.trades
  {
    hide EvaluateBar, RunProbes, Probes, Equity, StateAfter, AtMark;
    if n == cfg.warmup {
      FirstState(cfg, candles);
    } else {
      LastBar(cfg, candles, n);
      PointsAreRecorded(cfg, candles, n - 1);
      BarKeepsTheLedger(cfg, candles, n - 1);
    }
  }

  /** The timer says `t` exactly if the limits were crossed at every bar since one at `t`, and not at
      the bar before that one, counting from the last release. */
  lemma LockTimerIsExact(cfg: Config, candles: seq<Candle>, n: nat, t: Time)
    requires 0 <= cfg.warmup <= n <= |candles|
    requires StateAfter(cfg, candles, n).Ok? && cfg.lockReleaseDays.Some?
    ensures var (points, m) := (Points(cfg, candles), n - cfg.warmup);
            var f := Restart(cfg, points, m);
            StateAfter(cfg, candles, n).value.lockSince == Some(t) <==>
              exists k :: && f <= k < m && points[k].time == t
                          && CrossedFrom(cfg, points, f, k, m) && (k > f ==> !Crossed(cfg, points, f, k - 1))
  {
    hide StateAfter, Points, Crossed, Restart;
    RiskMeasuresMatchHistory(cfg, candles, n);
    var (points, m) := (Points(cfg, candles), n - cfg.warmup);
    var f := Restart(cfg, points, m);
    var start := StreakStart(cfg, points, f, m);
    forall k | f <= k < m && CrossedFrom(cfg, points, f, k, m) && (k > f ==> !Crossed(cfg, points, f, k - 1))
      ensures k == start
    {
    }
  }

  /** Without releases the gate is told the losing streak of all trades and the peak of the curve. */
  lemma MeasuresWithoutReleases(cfg: Config, candles: seq<Candle>, n: nat)
    requires 0 <= cfg.warmup <= n <= |candles|
    requires StateAfter(cfg, candles, n).Ok? && cfg.lockReleaseDays.None?
    ensures var s := StateAfter(cfg, candles, n).value;
            && s.consecutiveLosses == TrailingLosses(s.trades) && s.lockSince.None? && s.peakEquity >= 0.0
            && (forall j :: 0 <= j < |s.curve| ==> s.curve[j].1 <= s.peakEquity)
            && (s.peakEquity == 0.0 || exists j :: 0 <= j < |s.curve| && s.curve[j].1 == s.peakEquity)
  {
    hide StateAfter, Points;
    RiskMeasuresMatchHistory(cfg, candles, n);
    RestartIsLastRelease(cfg, Points(cfg, candles), n - cfg.warmup);
    TopIsHighest(Points(cfg, candles), 0, n - cfg.warmup);
    PointsAreRecorded(cfg, candles, n);
    var s := StateAfter(cfg, candles, n).value;
    assert s.trades[0..] == s.trades;
  }
}
