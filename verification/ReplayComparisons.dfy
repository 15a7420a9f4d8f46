/** Properties that compare two replays (no look-ahead, bounded history), and the errors a replay
    can raise. */
module ReplayComparisons {
  import opened Wrappers
  import opened BacktestFill
  import opened ReplaySpec
  import opened ReplayProperties
  import opened ReplayRuns
  import opened ReplayLedger

  /** Two configurations that differ only in their warmup and their finer monitoring bars. */
  ghost predicate SameRules(c1: Config, c2: Config) {
    c2 == c1.(warmup := c2.warmup, monitor := c2.monitor)
  }

  lemma {:induction false} ProbesIgnoreMonitor(c1: Config, c2: Config, s: State, probes: seq<Bar>)
    requires SameRules(c1, c2)
    ensures RunProbes(c1, s, probes) == RunProbes(c2, s, probes)
    decreases |probes|
  {
    if probes != [] && !Unprotected(c1, s) {
      hide ApplyAndRecord, SimulateFill;
      ProbesIgnoreMonitor(c1, c2, RaiseTrailingStop(s, probes[0]), probes[1..]);
    }
  }

  lemma SignalIgnoresMonitor(c1: Config, c2: Config, s: State, candle: Candle, history: seq<Candle>)
    requires SameRules(c1, c2)
    ensures Mark(c1, s, candle) == Mark(c2, s, candle)
    ensures ActOnSignal(c1, s, candle, history) == ActOnSignal(c2, s, candle, history)
  {
    hide ApplyAndRecord, SimulateFill, NoteWindows, MarketValue, UnrealizedPnl;
    var action := c1.signal(history);
    if !Opposes(action, s.position) && action != Hold {
      EntryIgnoresMonitor(c1, c2, s, candle, history, action);
    }
  }

  lemma EntryIgnoresMonitor(c1: Config, c2: Config, s: State, candle: Candle, history: seq<Candle>, action: SignalAction)
    requires SameRules(c1, c2) && action != Hold
    ensures Enter(c1, s, candle, history, action) == Enter(c2, s, candle, history, action)
  {
    hide ApplyAndRecord, SimulateFill, MarketValue, UnrealizedPnl, LevelAt;
    var distance := c1.stopDistance(history);
    assert RiskInputOf(c1, s, candle, action, distance) == RiskInputOf(c2, s, candle, action, distance);
  }

  /** A bar is evaluated from its own candle, its probes and its history window, and nothing else. */
  lemma SameBar(c1: Config, c2: Config, s: State, cs1: seq<Candle>, i1: nat, cs2: seq<Candle>, i2: nat)
    requires SameRules(c1, c2) && i1 < |cs1| && i2 < |cs2| && cs1[i1] == cs2[i2]
    requires Probes(c1, cs1[i1]) == Probes(c2, cs2[i2])
    requires History(c1, cs1, i1) == History(c2, cs2, i2)
    ensures EvaluateBar(c1, s, cs1, i1) == EvaluateBar(c2, s, cs2, i2)
  {
    var probes := Probes(c1, cs1[i1]);
    ProbesIgnoreMonitor(c1, c2, s, probes);
    hide RunProbes, Mark, ActOnSignal, Probes, History;
    var r := RunProbes(c1, s, probes);
    if r.Ok? {
      SignalIgnoresMonitor(c1, c2, r.value, cs1[i1], History(c1, cs1, i1));
      SignalIgnoresMonitor(c1, c2, Mark(c1, r.value, cs1[i1]), cs1[i1], History(c1, cs1, i1));
    }
  }

  // ----- no look-ahead -----

  ghost predicate AgreeUpTo(c1: Config, c2: Config, cs1: seq<Candle>, cs2: seq<Candle>, k: nat) {
    && SameRules(c1, c2) && c1.warmup == c2.warmup
    && k <= |cs1| && k <= |cs2| && cs1[..k] == cs2[..k]
    && forall i :: 0 <= i < k ==> Probes(c1, cs1[i]) == Probes(c2, cs2[i])
  }

  lemma SlicesAgree<T>(a: seq<T>, b: seq<T>, k: nat, low: nat, high: nat)
    requires k <= |a| && k <= |b| && a[..k] == b[..k] && low <= high <= k
    ensures a[low..high] == b[low..high]
  {
  }

  lemma {:induction false} SameStatesUpTo(c1: Config, c2: Config, cs1: seq<Candle>, cs2: seq<Candle>, k: nat, n: nat)
    requires AgreeUpTo(c1, c2, cs1, cs2, k) && 0 <= c1.warmup <= n <= k
    ensures StateAfter(c1, cs1, n) == StateAfter(c2, cs2, n)
  {
    hide EvaluateBar, Probes;
    if n > c1.warmup {
      SameStatesUpTo(c1, c2, cs1, cs2, k, n - 1);
      assert cs1[n - 1] == cs1[..k][n - 1] == cs2[..k][n - 1] == cs2[n - 1];
      var low := if n <= c1.window then 0 else n - c1.window;
      SlicesAgree(cs1, cs2, k, low, n);
      var r := StateAfter(c1, cs1, n - 1);
      if r.Ok? {
        SameBar(c1, c2, r.value, cs1, n - 1, cs2, n - 1);
      }
    }
  }

  /** No look-ahead: two series that agree on their first `k` candles (and the finer bars inside
      them) give the same equity curve for those bars, and the trades made by then are a common
      prefix of the trades of both runs, for every signal generator, gate and exit policy. */
  lemma NoLookAhead(c1: Config, c2: Config, cs1: seq<Candle>, cs2: seq<Candle>, k: nat)
    requires AgreeUpTo(c1, c2, cs1, cs2, k) && 0 <= c1.warmup < k
    requires Replay(c1, cs1).Ok? && Replay(c2, cs2).Ok?
    ensures StateAfter(c1, cs1, k).Ok?
    ensures var (r1, r2, s) := (Replay(c1, cs1).value, Replay(c2, cs2).value, StateAfter(c1, cs1, k).value);
            && s.trades <= r1.trades && s.trades <= r2.trades
            && k - c1.warmup <= |r1.curve| && k - c1.warmup <= |r2.curve|
            && r1.curve[..k - c1.warmup] == r2.curve[..k - c1.warmup] == s.curve
  {
    hide EvaluateBar, Probes, Balanced;
    SameStatesUpTo(c1, c2, cs1, cs2, k, k);
    RecordsOnlyGrow(c1, cs1, k, |cs1|);
    RecordsOnlyGrow(c2, cs2, k, |cs2|);
    ReplayIsBalanced(c1, cs1, k);
  }

  /** The trades of the run on a prefix are a prefix of the trades of the longer run. */
  lemma PrefixRunIsAPrefix(cfg: Config, candles: seq<Candle>, k: nat)
    requires 0 <= cfg.warmup < k <= |candles| && Replay(cfg, candles).Ok?
    ensures Replay(cfg, candles[..k]).Ok?
    ensures Replay(cfg, candles[..k]).value.trades <= Replay(cfg, candles).value.trades
    ensures Replay(cfg, candles[..k]).value.curve <= Replay(cfg, candles).value.curve
  {
    hide EvaluateBar, Probes;
    RecordsOnlyGrow(cfg, candles, k, |candles|);
    SameStatesUpTo(cfg, cfg, candles, candles[..k], k, k);
  }

  // ----- bounded history -----

  /** Dropping `d` old candles leaves every evaluated bar's window alone. */
  predicate WindowSurvives(cfg: Config, d: nat) {
    d == 0 || cfg.warmup - d >= cfg.window - 1
  }

  lemma SameWindow(cfg: Config, candles: seq<Candle>, d: nat, i: nat)
    requires d <= cfg.warmup <= i < |candles| && WindowSurvives(cfg, d)
    ensures History(cfg, candles, i) == History(cfg.(warmup := cfg.warmup - d), candles[d..], i - d)
  {
  }

  /** The condition is exact: with a non-empty window and at least one evaluated bar, every window
      survives the drop if and only if what remains of the warmup fills the first one. */
  lemma WindowSurvivesExactly(cfg: Config, candles: seq<Candle>, d: nat)
    requires d <= cfg.warmup < |candles| && cfg.window > 0
    ensures WindowSurvives(cfg, d) <==>
            forall i :: cfg.warmup <= i < |candles| ==>
                          History(cfg, candles, i) == History(cfg.(warmup := cfg.warmup - d), candles[d..], i - d)
  {
    if WindowSurvives(cfg, d) {
      forall i | cfg.warmup <= i < |candles|
        ensures History(cfg, candles, i) == History(cfg.(warmup := cfg.warmup - d), candles[d..], i - d)
      {
        SameWindow(cfg, candles, d, i);
      }
    } else {
      var i := cfg.warmup;
      assert |History(cfg.(warmup := cfg.warmup - d), candles[d..], i - d)| < |History(cfg, candles, i)|;
    }
  }

  lemma {:induction false} SameStatesAfterDrop(cfg: Config, candles: seq<Candle>, d: nat, n: nat)
    requires d <= cfg.warmup <= n <= |candles| && WindowSurvives(cfg, d)
    ensures StateAfter(cfg, candles, n) == StateAfter(cfg.(warmup := cfg.warmup - d), candles[d..], n - d)
  {
    hide EvaluateBar, Probes, History;
    var c2 := cfg.(warmup := cfg.warmup - d);
    if n > cfg.warmup {
      SameStatesAfterDrop(cfg, candles, d, n - 1);
      SameWindow(cfg, candles, d, n - 1);
      var r := StateAfter(cfg, candles, n - 1);
      assert Probes(cfg, candles[n - 1]) == Probes(c2, candles[d..][n - 1 - d]) by {
        ProbesIgnoreWarmup(cfg, d, candles[n - 1]);
      }
      if r.Ok? {
        SameBar(cfg, c2, r.value, candles, n - 1, candles[d..], n - 1 - d);
      }
    }
  }

  lemma ProbesIgnoreWarmup(cfg: Config, d: nat, candle: Candle)
    ensures Probes(cfg, candle) == Probes(cfg.(warmup := cfg.warmup - d), candle)
  {
  }

  /** Bounded history: dropping the first `d` candles and lowering the warmup by `d` changes nothing
      in the result while the remaining warmup still fills a window. */
  lemma OldHistoryDoesNotMatter(cfg: Config, candles: seq<Candle>, d: nat)
    requires d <= cfg.warmup && d <= |candles| && WindowSurvives(cfg, d)
    ensures Replay(cfg, candles) == Replay(cfg.(warmup := cfg.warmup - d), candles[d..])
  {
    hide EvaluateBar, Probes, StateAfter;
    if |candles| > cfg.warmup {
      SameStatesAfterDrop(cfg, candles, d, |candles|);
    }
  }

  // ----- errors -----

  /** The only errors left: rejected arguments, an exchange without a fee rule, and a fill price
      driven to zero or below by slippage. */
  predicate IsInputError(e: Error) {
    e in {NegativeWarmup, NegativeStopSlippage, UnsupportedExchange, InvalidFillPrice}
  }

  lemma SimulatedFillErrors(exchange: Exchange, side: OrderSide, close: real, quantity: real, slippage: real)
    ensures var r := SimulateFill(exchange, side, close, quantity, slippage);
            if r.Err? then IsInputError(r.error) else r.value.quantity == quantity
  {
  }

  lemma {:induction false} ProbeErrors(cfg: Config, s: State, probes: seq<Bar>)
    requires Sound(cfg, s)
    ensures RunProbes(cfg, s, probes).Err? ==> IsInputError(RunProbes(cfg, s, probes).error)
    decreases |probes|
  {
    if probes != [] && !Unprotected(cfg, s) {
      var held := s.position.value;
      var hit := ProtectiveExit(probes[0], held.side, s.stopPrice.value, s.takeProfitPrice);
      if hit.None? {
        TrailingStopOnlyRises(cfg, s, probes[0]);
        ProbeErrors(cfg, RaiseTrailingStop(s, probes[0]), probes[1..]);
      } else {
        var price := if hit.value.1 == ByStop then SlippedStopPrice(hit.value.0, held.side, cfg.stopSlippage) else hit.value.0;
        SimulatedFillErrors(cfg.exchange, ClosingSide(held.side), price, held.quantity, cfg.expectedSlippage);
        var fill := SimulateFill(cfg.exchange, ClosingSide(held.side), price, held.quantity, cfg.expectedSlippage);
        if fill.Ok? {
          ClosingFill(cfg, s, fill.value, probes[0].closeTime, hit.value.1);
        }
      }
    }
  }

  lemma SignalErrors(cfg: Config, s: State, candle: Candle, history: seq<Candle>)
    requires Sound(cfg, s) && GateDeniesShorts(cfg)
    ensures var r := ActOnSignal(cfg, s, candle, history);
            r.Err? ==> IsInputError(r.error)
  {
  }

  /** A replay whose gate never approves a short it cannot hold fails only on its inputs: it never
      attempts an unsupported short, divides by zero, or loses track of an entry time. */
  lemma {:induction false} ReplayFailsOnlyOnInputs(cfg: Config, candles: seq<Candle>, n: nat)
    requires 0 <= cfg.warmup <= n <= |candles| && GateDeniesShorts(cfg)
    ensures StateAfter(cfg, candles, n).Err? ==> IsInputError(StateAfter(cfg, candles, n).error)
  {
    if n > cfg.warmup {
      hide RunProbes, Mark, ActOnSignal, Probes, History, Sound, IsInputError;
      ReplayFailsOnlyOnInputs(cfg, candles, n - 1);
      var r := StateAfter(cfg, candles, n - 1);
      if r.Ok? {
        ReplayIsSound(cfg, candles, n - 1);
        var probes := Probes(cfg, candles[n - 1]);
        ProbeErrors(cfg, r.value, probes);
        var m := RunProbes(cfg, r.value, probes);
        if m.Ok? {
          ProbesCloseWhole(cfg, r.value, probes);
          SoundAfterProbes(cfg, r.value, probes, m.value);
          MarkKeepsSound(cfg, m.value, candles[n - 1]);
          SignalErrors(cfg, Mark(cfg, m.value, candles[n - 1]), candles[n - 1], History(cfg, candles, n - 1));
        }
      }
    }
  }
}
