/** Properties of whole replays: soundness of every reachable state, whole round trips, trade times,
    and the equity a day and a week start with. */
module ReplayRuns {
  import opened Wrappers
  import opened BacktestFill
  import opened ReplaySpec
  import opened ReplayProperties

  // ----- every bar -----

  /** Marking changes the curve and the risk measures, nothing else. */
  predicate MarkedFrom(s: State, t: State) {
    t == s.(curve := t.curve, peakEquity := t.peakEquity, consecutiveLosses := t.consecutiveLosses, lockSince := t.lockSince,
            dayStartDate := t.dayStartDate, dayStartEquity := t.dayStartEquity,
            weekStartDate := t.weekStartDate, weekStartEquity := t.weekStartEquity)
  }

  lemma WindowsAreMeasures(s: State, now: Time, equity: real)
    ensures var t := NoteWindows(s, now, equity);
            MarkedFrom(s, t) && t.curve == s.curve
            && t.peakEquity == s.peakEquity && t.consecutiveLosses == s.consecutiveLosses && t.lockSince == s.lockSince
  {
  }

  lemma ReleaseIsMeasure(cfg: Config, s: State, now: Time, equity: real, releaseAfter: int)
    ensures var t := ReleaseExpiredLock(cfg, s, now, equity, releaseAfter);
            MarkedFrom(s, t) && t.curve == s.curve
  {
  }

  lemma MarkEffect(cfg: Config, s: State, candle: Candle)
    ensures var t := Mark(cfg, s, candle);
            && MarkedFrom(s, t)
            && t.curve == s.curve + [(candle.closeTime, Equity(s, candle.close))]
  {
    hide NoteWindows, ReleaseExpiredLock, Equity, MaxReal;
    var equity := Equity(s, candle.close);
    var s1 := s.(curve := s.curve + [(candle.closeTime, equity)], peakEquity := MaxReal(s.peakEquity, equity));
    WindowsAreMeasures(s1, candle.closeTime, equity);
    if cfg.lockReleaseDays.Some? {
      var after := cfg.lockReleaseDays.value * SECONDS_PER_DAY;
      ReleaseIsMeasure(cfg, s1, candle.closeTime, equity, after);
      WindowsAreMeasures(ReleaseExpiredLock(cfg, s1, candle.closeTime, equity, after), candle.closeTime, equity);
    }
  }

  lemma MarkKeepsSound(cfg: Config, s: State, candle: Candle)
    requires Sound(cfg, s)
    ensures Sound(cfg, Mark(cfg, s, candle)) && MarkedFrom(s, Mark(cfg, s, candle))
  {
    hide Mark;
    MarkEffect(cfg, s, candle);
  }

  /** The states between which one bar moves: after its stop checks, and after it was marked. */
  predicate BarPath(cfg: Config, candles: seq<Candle>, i: nat, s: State, m: State, t: State)
    requires i < |candles|
  {
    && ProbedTo(cfg, s, Probes(cfg, candles[i]), m)
    && ActedTo(cfg, Mark(cfg, m, candles[i]), candles[i].closeTime, t)
  }

  lemma BarIsSound(cfg: Config, s: State, candles: seq<Candle>, i: nat)
    requires i < |candles| && Sound(cfg, s) && EvaluateBar(cfg, s, candles, i).Ok?
    ensures RunProbes(cfg, s, Probes(cfg, candles[i])).Ok?
    ensures BarPath(cfg, candles, i, s, RunProbes(cfg, s, Probes(cfg, candles[i])).value, EvaluateBar(cfg, s, candles, i).value)
  {
    hide RunProbes, Mark, ActOnSignal, History, Probes;
    ProbesCloseWhole(cfg, s, Probes(cfg, candles[i]));
    var m := RunProbes(cfg, s, Probes(cfg, candles[i])).value;
    MarkKeepsSound(cfg, m, candles[i]);
    SignalActs(cfg, Mark(cfg, m, candles[i]), candles[i], History(cfg, candles, i));
  }

  /** Every state of every replay is sound: exit levels exist exactly while their policy holds a
      position, a long's trailing stop equals the highest price minus the trail, sequence numbers
      are the 1-based indexes, and without shorting nothing short is ever held. */
  lemma {:induction false} ReplayIsSound(cfg: Config, candles: seq<Candle>, n: nat)
    requires 0 <= cfg.warmup <= n <= |candles|
    requires StateAfter(cfg, candles, n).Ok?
    ensures Sound(cfg, StateAfter(cfg, candles, n).value)
  {
    hide EvaluateBar, Sound, RunProbes, Probes, Initial;
    if n > cfg.warmup {
      ReplayIsSound(cfg, candles, n - 1);
      BarIsSound(cfg, StateAfter(cfg, candles, n - 1).value, candles, n - 1);
    } else {
      InitialIsSound(cfg);
    }
  }

  lemma InitialIsSound(cfg: Config)
    ensures Sound(cfg, Initial(cfg.initialEquity))
  {
  }

  /** Partial reductions and flips never happen in a replay: whatever a bar closes, it closes whole,
      through a stop, a target or an opposing signal. A held long's stop never falls. */
  lemma EveryBarClosesWholeOrNothing(cfg: Config, candles: seq<Candle>, i: nat)
    requires 0 <= cfg.warmup <= i < |candles|
    requires StateAfter(cfg, candles, i + 1).Ok?
    ensures StateAfter(cfg, candles, i).Ok?
    ensures RunProbes(cfg, StateAfter(cfg, candles, i).value, Probes(cfg, candles[i])).Ok?
    ensures var s := StateAfter(cfg, candles, i).value;
            var m := RunProbes(cfg, s, Probes(cfg, candles[i])).value;
            var t := StateAfter(cfg, candles, i + 1).value;
            && (m.trades == s.trades || ClosedWhole(s, m))
            && (t.trades == m.trades || ClosedWhole(m, t))
            && (t.trades == s.trades && s.position.Some? ==>
                  && t.position.Some? && t.position.value.side == s.position.value.side
                  && t.position.value.quantity >= s.position.value.quantity
                  && (s.stopPrice.Some? && s.position.value.side == Long ==>
                        t.stopPrice.Some? && t.stopPrice.value >= s.stopPrice.value))
  {
    hide EvaluateBar, RunProbes, Probes, Mark, Sound, ProbedTo, ActedTo, ClosedWhole;
    ReplayIsSound(cfg, candles, i);
    var s := StateAfter(cfg, candles, i).value;
    BarIsSound(cfg, s, candles, i);
    var m := RunProbes(cfg, s, Probes(cfg, candles[i])).value;
    SoundAfterProbes(cfg, s, Probes(cfg, candles[i]), m);
    MarkKeepsSound(cfg, m, candles[i]);
    BarOutcome(cfg, s, Probes(cfg, candles[i]), m, Mark(cfg, m, candles[i]), candles[i].closeTime, StateAfter(cfg,
          candles, i + 1).value);
  }

  lemma BarOutcome(cfg: Config, s: State, probes: seq<Bar>, m: State, marked: State, now: Time, t: State)
    requires Sound(cfg, s) && ProbedTo(cfg, s, probes, m) && MarkedFrom(m, marked) && ActedTo(cfg, marked, now, t)
    ensures m.trades == s.trades || ClosedWhole(s, m)
    ensures t.trades == m.trades || ClosedWhole(m, t)
    ensures t.trades == s.trades && s.position.Some? ==>
              && t.position.Some? && t.position.value.side == s.position.value.side
              && t.position.value.quantity >= s.position.value.quantity
              && (s.stopPrice.Some? && s.position.value.side == Long ==>
                    t.stopPrice.Some? && t.stopPrice.value >= s.stopPrice.value)
  {
  }

  // ----- trade times -----

  /** What the caller guarantees: bars in order of closing, and finer bars inside their own bar. */
  ghost predicate Ordered(cfg: Config, candles: seq<Candle>) {
    && (forall i, j :: 0 <= i <= j < |candles| ==> candles[i].closeTime <= candles[j].closeTime)
    && (forall i, k :: 0 <= i < |candles| && 0 <= k < |Probes(cfg, candles[i])| ==>
          && Probes(cfg, candles[i])[k].closeTime <= candles[i].closeTime
          && (i > 0 ==> candles[i - 1].closeTime <= Probes(cfg, candles[i])[k].closeTime))
  }

  /** Trades do not overlap, none ends after `now`, and the open position began after the last one. */
  predicate Chronological(s: State, now: Time) {
    && (forall i :: 0 <= i < |s.trades| ==> s.trades[i].entryTime <= s.trades[i].exitTime <= now)
    && (forall i, j :: 0 <= i < j < |s.trades| ==> s.trades[i].exitTime <= s.trades[j].entryTime)
    && (s.openedAt.Some? ==> s.openedAt.value <= now
                             && forall i :: 0 <= i < |s.trades| ==> s.trades[i].exitTime <= s.openedAt.value)
  }

  lemma ProbesStayChronological(cfg: Config, s: State, probes: seq<Bar>, t: State, before: Time, now: Time)
    requires Sound(cfg, s) && ProbedTo(cfg, s, probes, t) && Chronological(s, before) && before <= now
    requires forall k :: 0 <= k < |probes| ==> before <= probes[k].closeTime <= now
    ensures Chronological(t, now)
  {
  }

  lemma ActingStaysChronological(cfg: Config, s: State, t: State, now: Time)
    requires Sound(cfg, s) && ActedTo(cfg, s, now, t) && Chronological(s, now)
    ensures Chronological(t, now)
  {
  }

  /** Trade intervals of a replay never overlap, and every trade ends by the bar being evaluated. */
  lemma {:induction false} TradesDoNotOverlap(cfg: Config, candles: seq<Candle>, n: nat)
    requires 0 <= cfg.warmup < n <= |candles| && Ordered(cfg, candles)
    requires StateAfter(cfg, candles, n).Ok?
    ensures Chronological(StateAfter(cfg, candles, n).value, candles[n - 1].closeTime)
  {
    hide EvaluateBar, RunProbes, Probes, Mark, Sound, ProbedTo, ActedTo;
    ReplayIsSound(cfg, candles, n - 1);
    var s := StateAfter(cfg, candles, n - 1).value;
    BarIsSound(cfg, s, candles, n - 1);
    var probes := Probes(cfg, candles[n - 1]);
    var m := RunProbes(cfg, s, probes).value;
    var now := candles[n - 1].closeTime;
    SoundAfterProbes(cfg, s, probes, m);
    MarkKeepsSound(cfg, m, candles[n - 1]);
    if n - 1 > cfg.warmup {
      TradesDoNotOverlap(cfg, candles, n - 1);
      ProbesStayChronological(cfg, s, probes, m, candles[n - 2].closeTime, now);
    } else {
      assert s == Initial(cfg.initialEquity);
      InitialIsUnprotected(cfg, probes);
    }
    ActingStaysChronological(cfg, Mark(cfg, m, candles[n - 1]), StateAfter(cfg, candles, n).value, now);
  }

  lemma SoundAfterProbes(cfg: Config, s: State, probes: seq<Bar>, t: State)
    requires ProbedTo(cfg, s, probes, t)
    ensures Sound(cfg, t)
  {
  }

  lemma InitialIsUnprotected(cfg: Config, probes: seq<Bar>)
    ensures RunProbes(cfg, Initial(cfg.initialEquity), probes) == Ok(Initial(cfg.initialEquity))
  {
  }

  // ----- the day's and the week's starting equity -----

  /** The equity at the first bar of the last unbroken run of bars in one period. */
  function PeriodStart(curve: seq<(Time, real)>, period: Time -> int): real
    requires curve != []
  {
    var last := |curve| - 1;
    if last == 0 || period(curve[last - 1].0) != period(curve[last].0) then curve[last].1
    else PeriodStart(curve[..last], period)
  }

  function DayPeriod(): Time -> int { t => DayOf(t) }

  function WeekPeriod(): Time -> int { t => WeekStart(DayOf(t)) }

  /** The windows of a state are those of its last curve point. */
  predicate WindowsAgree(s: State) {
    if s.curve == [] then s.dayStartDate.None? && s.weekStartDate.None?
    else
      var now := s.curve[|s.curve| - 1].0;
      && s.dayStartDate == Some(DayOf(now)) && s.dayStartEquity == PeriodStart(s.curve, DayPeriod())
      && s.weekStartDate == Some(WeekStart(DayOf(now))) && s.weekStartEquity == PeriodStart(s.curve, WeekPeriod())
  }

  predicate SameWindows(s: State, t: State) {
    && t.dayStartDate == s.dayStartDate && t.dayStartEquity == s.dayStartEquity && t.curve == s.curve
    && t.weekStartDate == s.weekStartDate && t.weekStartEquity == s.weekStartEquity
  }

  lemma FillKeepsWindows(s: State, fill: Fill, side: OrderSide, now: Time, allowShort: bool, reason: ExitReason)
    ensures var r := ApplyAndRecord(s, fill, side, now, allowShort, reason); r.Ok? ==> SameWindows(s, r.value)
  {
    hide ApplyFillToPosition, ClosingFee, EntryFeeShare, ClosingQuantity, SignedNotional;
  }

  lemma {:induction false} ProbesKeepWindows(cfg: Config, s: State, probes: seq<Bar>)
    ensures var r := RunProbes(cfg, s, probes); r.Ok? ==> SameWindows(s, r.value)
    decreases |probes|
  {
    hide ApplyAndRecord, SimulateFill, ProtectiveExit;
    if probes != [] && !Unprotected(cfg, s) {
      var hit := ProtectiveExit(probes[0], s.position.value.side, s.stopPrice.value, s.takeProfitPrice);
      if hit.None? {
        ProbesKeepWindows(cfg, RaiseTrailingStop(s, probes[0]), probes[1..]);
      } else {
        var held := s.position.value;
        var price := if hit.value.1 == ByStop then SlippedStopPrice(hit.value.0, held.side, cfg.stopSlippage) else hit.value.0;
        var fill := SimulateFill(cfg.exchange, ClosingSide(held.side), price, held.quantity, cfg.expectedSlippage);
        if fill.Ok? {
          FillKeepsWindows(s, fill.value, ClosingSide(held.side), probes[0].closeTime, AllowShort(cfg.exchange), hit.value.1);
        }
      }
    }
  }

  lemma ActingKeepsWindows(cfg: Config, s: State, candle: Candle, history: seq<Candle>)
    ensures var r := ActOnSignal(cfg, s, candle, history); r.Ok? ==> SameWindows(s, r.value)
  {
    hide ApplyAndRecord, SimulateFill, RiskInputOf;
    var action := cfg.signal(history);
    if action != Hold {
      var side := OrderSideOf(action);
      forall fill: Fill
        ensures var r := ApplyAndRecord(s, fill, side, candle.closeTime, AllowShort(cfg.exchange), BySignal);
                r.Ok? ==> SameWindows(s, r.value)
      {
        FillKeepsWindows(s, fill, side, candle.closeTime, AllowShort(cfg.exchange), BySignal);
      }
    }
  }

  lemma ReleaseKeepsWindows(cfg: Config, s: State, now: Time, equity: real, releaseAfter: int)
    ensures SameWindows(s, ReleaseExpiredLock(cfg, s, now, equity, releaseAfter))
  {
  }

  lemma NotingMovesWindows(s: State, t: State, now: Time, equity: real)
    requires WindowsAgree(s) && t.curve == s.curve + [(now, equity)] && SameWindows(s, t.(curve := s.curve))
    ensures WindowsAgree(NoteWindows(t, now, equity))
  {
    hide DayOf, WeekStart;
    assert t.curve[..|s.curve|] == s.curve;
  }

  lemma MarkMovesWindows(cfg: Config, s: State, candle: Candle)
    requires WindowsAgree(s)
    ensures WindowsAgree(Mark(cfg, s, candle))
  {
    hide Equity, WindowsAgree, ReleaseExpiredLock, NoteWindows;
    var equity := Equity(s, candle.close);
    var marked := s.(curve := s.curve + [(candle.closeTime, equity)], peakEquity := MaxReal(s.peakEquity, equity));
    if cfg.lockReleaseDays.None? {
      NotingMovesWindows(s, marked, candle.closeTime, equity);
    } else {
      var after := cfg.lockReleaseDays.value * SECONDS_PER_DAY;
      ReleaseKeepsWindows(cfg, marked, candle.closeTime, equity, after);
      NotingMovesWindows(s, ReleaseExpiredLock(cfg, marked, candle.closeTime, equity, after), candle.closeTime, equity);
    }
  }

  lemma InitialWindows(cfg: Config)
    ensures WindowsAgree(Initial(cfg.initialEquity))
  {
  }

  lemma BarKeepsWindows(cfg: Config, s: State, candles: seq<Candle>, i: nat)
    requires i < |candles| && WindowsAgree(s) && EvaluateBar(cfg, s, candles, i).Ok?
    ensures WindowsAgree(EvaluateBar(cfg, s, candles, i).value)
  {
    hide RunProbes, Probes, Mark, ActOnSignal, History, WindowsAgree;
    var probes := Probes(cfg, candles[i]);
    ProbesKeepWindows(cfg, s, probes);
    var m := RunProbes(cfg, s, probes).value;
    SameWindowsAgree(s, m);
    MarkMovesWindows(cfg, m, candles[i]);
    ActingKeepsWindows(cfg, Mark(cfg, m, candles[i]), candles[i], History(cfg, candles, i));
    SameWindowsAgree(Mark(cfg, m, candles[i]), EvaluateBar(cfg, s, candles, i).value);
  }

  /** The starting equities the gate compares with are those of the first bar of the running day and
      of the running week. */
  lemma {:induction false} WindowsMatchHistory(cfg: Config, candles: seq<Candle>, n: nat)
    requires 0 <= cfg.warmup <= n <= |candles|
    requires StateAfter(cfg, candles, n).Ok?
    ensures WindowsAgree(StateAfter(cfg, candles, n).value)
  {
    hide StateAfter, EvaluateBar, WindowsAgree, Initial;
    if n == cfg.warmup {
      FirstState(cfg, candles);
      InitialWindows(cfg);
    } else {
      LastBar(cfg, candles, n);
      WindowsMatchHistory(cfg, candles, n - 1);
      BarKeepsWindows(cfg, StateAfter(cfg, candles, n - 1).value, candles, n - 1);
    }
  }

  lemma SameWindowsAgree(s: State, t: State)
    requires WindowsAgree(s) && SameWindows(s, t)
    ensures WindowsAgree(t)
  {
  }
}
