/** Candles from price ticks (app/market_data/infrastructure/oanda_stream.py): the streaming
    normalizer and, independently, the candles a batch computation over all ticks would give. */
module TickCandles {
  import opened Wrappers
  import opened CandleStream
  import Arithmetic

  /** A mid price and the time it was quoted, in seconds since the epoch. */
  datatype Tick = Tick(time: real, price: real)

  /** Towards zero, as Python's `int`. */
  function Truncated(x: real): int { if x >= 0.0 then x.Floor else -((-x).Floor) }

  function BucketOf(time: real, width: nat): int
    requires width > 0
  {
    Truncated(time) / width * width
  }

  /** A bucket contains the tick it was computed from, except for a tick before the epoch whose
      fraction of a second, cut off towards zero, lifts it onto a bucket boundary. */
  lemma BucketHoldsItsTick(time: real, width: nat)
    requires width > 0
    ensures BucketOf(time, width) as real <= time < (BucketOf(time, width) + width) as real
            <==> time >= 0.0 || Truncated(time) as real == time || Truncated(time) % width != 0
  {
  }

  // ----- the streaming form -----

  datatype Bucket = Bucket(openTime: int, ohlcv: OHLCV)

  function Opened(price: real): OHLCV { OHLCV(price, price, price, price, 1.0) }

  function Updated(v: OHLCV, price: real): OHLCV {
    OHLCV(v.open, if price > v.high then price else v.high, if price < v.low then price else v.low, price, v.volume + 1.0)
  }

  function Current(b: Bucket, isFinal: bool): Report { Candle(b.openTime, b.ohlcv, isFinal) }

  function AddTick(b: Option<Bucket>, tick: Tick, width: nat): (Option<Bucket>, seq<Report>)
    requires width > 0
  {
    var start := Bucket(BucketOf(tick.time, width), Opened(tick.price));
    if tick.price <= 0.0 then (b, [])
    else if b.None? then (Some(start), [Current(start, false)])
    else if start.openTime < b.value.openTime then (b, [])
    else if start.openTime == b.value.openTime then
      var next := Bucket(start.openTime, Updated(b.value.ohlcv, tick.price));
      (Some(next), [Current(next, false)])
    else (Some(start), [Current(b.value, true), Current(start, false)])
  }

  function AddAll(ticks: seq<Tick>, width: nat): (Option<Bucket>, seq<Report>)
    requires width > 0
  {
    if ticks == [] then (None, [])
    else
      var (b, updates) := AddAll(ticks[..|ticks| - 1], width);
      var (next, more) := AddTick(b, ticks[|ticks| - 1], width);
      (next, updates + more)
  }

  /** One candle being built. */
  class MutableOHLCV {
    var open: real
    var high: real
    var low: real
    var close: real
    var tickCount: nat

    ghost function Value(): OHLCV
      reads this
    {
      OHLCV(open, high, low, close, tickCount as real)
    }

    constructor (price: real)
      ensures Value() == Opened(price)
    {
      open, high, low, close := price, price, price, price;
      tickCount := 1;
    }

    method Update(price: real)
      modifies this
      ensures Value() == Updated(old(Value()), price)
    {
      high := if price > high then price else high;
      low := if price < low then price else low;
      close := price;
      tickCount := tickCount + 1;
    }

    method Snapshot() returns (v: OHLCV)
      ensures v == Value()
    {
      v := OHLCV(open, high, low, close, tickCount as real);
    }
  }

  class TickToCandleNormalizer {
    const bucketSeconds: nat
    var openTime: int
    var ohlcv: MutableOHLCV?
    ghost var Repr: set<object>

    ghost predicate Valid()
      reads this, Repr
    {
      bucketSeconds > 0 && this in Repr && (ohlcv != null ==> ohlcv in Repr)
    }

    ghost function Value(): Option<Bucket>
      reads this, Repr
      requires Valid()
    {
      if ohlcv == null then None else Some(Bucket(openTime, ohlcv.Value()))
    }

    constructor (seconds: nat)
      requires seconds > 0
      ensures Valid() && fresh(Repr) && bucketSeconds == seconds && Value() == None
    {
      bucketSeconds, openTime, ohlcv := seconds, 0, null;
      Repr := {this};
    }

    method StartBucket(time: int, price: real)
      requires Valid()
      modifies this
      ensures Valid() && fresh(Repr - old(Repr)) && Value() == Some(Bucket(time, Opened(price)))
    {
      openTime := time;
      ohlcv := new MutableOHLCV(price);
      Repr := Repr + {ohlcv};
    }

    method CurrentUpdate(isFinal: bool) returns (update: Report)
      requires Valid() && Value().Some?
      ensures update == Current(Value().value, isFinal)
    {
      var v := ohlcv.Snapshot();
      update := Candle(openTime, v, isFinal);
    }

    method Add(tick: Tick) returns (updates: seq<Report>)
      requires Valid()
      modifies Repr
      ensures Valid() && fresh(Repr - old(Repr))
      ensures (Value(), updates) == AddTick(old(Value()), tick, bucketSeconds)
    {
      if tick.price <= 0.0 {
        return [];
      }
      var bucketOpen := BucketOf(tick.time, bucketSeconds);
      if ohlcv == null {
        StartBucket(bucketOpen, tick.price);
        var current := CurrentUpdate(false);
        return [current];
      }
      if bucketOpen < openTime {
        return [];
      }
      if bucketOpen == openTime {
        ohlcv.Update(tick.price);
        var current := CurrentUpdate(false);
        return [current];
      }
      var finalized := CurrentUpdate(true);
      StartBucket(bucketOpen, tick.price);
      var current := CurrentUpdate(false);
      return [finalized, current];
    }
  }

  /** The worker's loop: every tick of the source through one normalizer, every update to the sink. */
  method RunWorker(ticks: seq<Tick>, seconds: nat) returns (published: seq<Report>)
    requires seconds > 0
    ensures published == AddAll(ticks, seconds).1
  {
    var normalizer := new TickToCandleNormalizer(seconds);
    published := [];
    var k := 0;
    while k < |ticks|
      invariant 0 <= k <= |ticks|
      invariant normalizer.Valid() && fresh(normalizer.Repr) && normalizer.bucketSeconds == seconds
      invariant (normalizer.Value(), published) == AddAll(ticks[..k], seconds)
    {
      assert ticks[..k + 1][..k] == ticks[..k];
      var updates := normalizer.Add(ticks[k]);
      published := published + updates;
      k := k + 1;
    }
    assert ticks[..k] == ticks;
  }

  // ----- the batch form -----

  /** A tick counts if its price is positive and no earlier priced tick belongs to a later bucket. */
  predicate Accepted(ticks: seq<Tick>, k: nat, width: nat)
    requires k < |ticks| && width > 0
  {
    && ticks[k].price > 0.0
    && forall j :: 0 <= j < k && ticks[j].price > 0.0 ==> BucketOf(ticks[j].time, width) <= BucketOf(ticks[k].time, width)
  }

  /** The accepted prices of one bucket, in order of arrival. */
  function PricesIn(ticks: seq<Tick>, bucket: int, width: nat): seq<real>
    requires width > 0
  {
    if ticks == [] then []
    else
      var last := |ticks| - 1;
      PricesIn(ticks[..last], bucket, width)
      + if Accepted(ticks, last, width) && BucketOf(ticks[last].time, width) == bucket then [ticks[last].price] else []
  }

  function Highest(prices: seq<real>): (h: real)
    requires prices != []
    ensures h in prices && forall i :: 0 <= i < |prices| ==> prices[i] <= h
  {
    if |prices| == 1 then prices[0]
    else
      var h := Highest(prices[..|prices| - 1]);
      if prices[|prices| - 1] > h then prices[|prices| - 1] else h
  }

  function Lowest(prices: seq<real>): (l: real)
    requires prices != []
    ensures l in prices && forall i :: 0 <= i < |prices| ==> l <= prices[i]
  {
    if |prices| == 1 then prices[0]
    else
      var l := Lowest(prices[..|prices| - 1]);
      if prices[|prices| - 1] < l then prices[|prices| - 1] else l
  }

  function Batch(prices: seq<real>): OHLCV
    requires prices != []
  {
    OHLCV(prices[0], Highest(prices), Lowest(prices), prices[|prices| - 1], |prices| as real)
  }

  function Finals(updates: seq<Report>): seq<Bucket> {
    if updates == [] then []
    else
      var u := updates[|updates| - 1];
      Finals(updates[..|updates| - 1]) + if u.Candle? && u.isFinal then [Bucket(u.openTime, u.ohlcv)] else []
  }

  // ----- streaming equals batch -----

  predicate Ascending(finals: seq<Bucket>) {
    forall i, j :: 0 <= i < j < |finals| ==> finals[i].openTime < finals[j].openTime
  }

  predicate Finalized(finals: seq<Bucket>, bucket: int) {
    exists i :: 0 <= i < |finals| && finals[i].openTime == bucket
  }

  /** The bucket is the batch candle of its accepted ticks. */
  predicate IsBatch(ticks: seq<Tick>, b: Bucket, width: nat)
    requires width > 0
  {
    PricesIn(ticks, b.openTime, width) != [] && b.ohlcv == Batch(PricesIn(ticks, b.openTime, width))
  }

  predicate NewestSoFar(ticks: seq<Tick>, bucket: int, width: nat)
    requires width > 0
  {
    forall k :: 0 <= k < |ticks| && ticks[k].price > 0.0 ==> BucketOf(ticks[k].time, width) <= bucket
  }

  /** Final candles: in order, each before the newest bucket, each its batch candle, none missing. */
  predicate FinalsAreBatches(ticks: seq<Tick>, finals: seq<Bucket>, newest: int, width: nat)
    requires width > 0
  {
    && Ascending(finals)
    && (forall i :: 0 <= i < |finals| ==> finals[i].openTime < newest && IsBatch(ticks, finals[i], width))
    && (forall k :: 0 <= k < |ticks| && Accepted(ticks, k, width) && BucketOf(ticks[k].time, width) != newest ==>
          Finalized(finals, BucketOf(ticks[k].time, width)))
  }

  /** What a run of the normalizer has to show for a sequence of ticks. */
  predicate Refines(ticks: seq<Tick>, b: Option<Bucket>, updates: seq<Report>, width: nat)
    requires width > 0
  {
    if b.None? then updates == [] && forall k :: 0 <= k < |ticks| ==> ticks[k].price <= 0.0
    else
      && updates != [] && updates[|updates| - 1] == Current(b.value, false)
      && IsBatch(ticks, b.value, width)
      && NewestSoFar(ticks, b.value.openTime, width)
      && FinalsAreBatches(ticks, Finals(updates), b.value.openTime, width)
  }

  lemma FinalsOfOneMore(updates: seq<Report>, u: Report)
    ensures Finals(updates + [u]) == if u.Candle?
          && u.isFinal then Finals(updates) + [Bucket(u.openTime, u.ohlcv)] else Finals(updates)
  {
  }

  lemma BatchOfOneMore(prices: seq<real>, price: real)
    ensures prices == [] ==> Batch(prices + [price]) == Opened(price)
    ensures prices != [] ==> Batch(prices + [price]) == Updated(Batch(prices), price)
  {
  }

  lemma PricesOfOneMore(prior: seq<Tick>, tick: Tick, bucket: int, width: nat)
    requires width > 0
    ensures var ticks := prior + [tick];
            PricesIn(ticks, bucket, width) ==
            if Accepted(ticks, |prior|, width)
                  && BucketOf(tick.time, width) == bucket then PricesIn(prior, bucket, width) + [tick.price]
            else PricesIn(prior, bucket, width)
  {
  }

  lemma {:induction false} PricesComeFromTicks(ticks: seq<Tick>, bucket: int, width: nat) returns (k: nat)
    requires width > 0 && PricesIn(ticks, bucket, width) != []
    ensures k < |ticks| && ticks[k].price > 0.0 && BucketOf(ticks[k].time, width) == bucket
  {
    hide BucketOf;
    var last := |ticks| - 1;
    if Accepted(ticks, last, width) && BucketOf(ticks[last].time, width) == bucket {
      return last;
    }
    k := PricesComeFromTicks(ticks[..last], bucket, width);
  }

  /** The running bucket is all the normalizer needs to decide whether a tick is accepted. */
  lemma AcceptedByBucket(prior: seq<Tick>, tick: Tick, b: Option<Bucket>, updates: seq<Report>, width: nat)
    requires width > 0 && Refines(prior, b, updates, width)
    ensures Accepted(prior + [tick], |prior|, width)
            <==> tick.price > 0.0 && (b.None? || b.value.openTime <= BucketOf(tick.time, width))
  {
    hide BucketOf, PricesIn, Finals, FinalsAreBatches;
    var ticks := prior + [tick];
    if b.Some? {
      var k := PricesComeFromTicks(prior, b.value.openTime, width);
      assert ticks[k] == prior[k];
    }
  }

  lemma EarlierAcceptance(prior: seq<Tick>, tick: Tick, k: nat, width: nat)
    requires width > 0 && k < |prior|
    ensures Accepted(prior + [tick], k, width) == Accepted(prior, k, width)
  {
    hide BucketOf;
    var ticks := prior + [tick];
    assert forall j :: 0 <= j < |prior| ==> ticks[j] == prior[j];
  }

  lemma NothingYet(prior: seq<Tick>, b: Option<Bucket>, updates: seq<Report>, bucket: int, width: nat)
    requires width > 0 && Refines(prior, b, updates, width) && (b.Some? ==> b.value.openTime < bucket)
    ensures PricesIn(prior, bucket, width) == []
  {
    hide BucketOf, PricesIn, Finals, FinalsAreBatches;
    if PricesIn(prior, bucket, width) != [] {
      var k := PricesComeFromTicks(prior, bucket, width);
    }
  }

  /** The final candles stay right while a tick is added that does not belong to any of them. */
  lemma FinalsStay(prior: seq<Tick>, tick: Tick, finals: seq<Bucket>, newest: int, width: nat)
    requires width > 0 && FinalsAreBatches(prior, finals, newest, width)
    requires Accepted(prior + [tick], |prior|, width) ==> BucketOf(tick.time, width) == newest
    ensures FinalsAreBatches(prior + [tick], finals, newest, width)
  {
    hide BucketOf, Accepted, PricesIn, Batch;
    var ticks := prior + [tick];
    forall i | 0 <= i < |finals|
      ensures finals[i].openTime < newest && IsBatch(ticks, finals[i], width)
    {
      PricesOfOneMore(prior, tick, finals[i].openTime, width);
    }
    forall k | 0 <= k < |ticks| && Accepted(ticks, k, width) && BucketOf(ticks[k].time, width) != newest
      ensures Finalized(finals, BucketOf(ticks[k].time, width))
    {
      if k < |prior| {
        EarlierAcceptance(prior, tick, k, width);
        assert ticks[k] == prior[k];
      }
    }
  }

  /** Closing the newest bucket adds its candle to the final ones. */
  lemma FinalsExtend(prior: seq<Tick>, tick: Tick, finals: seq<Bucket>, closed: Bucket, width: nat)
    requires width > 0 && FinalsAreBatches(prior, finals, closed.openTime, width) && IsBatch(prior, closed, width)
    requires closed.openTime < BucketOf(tick.time, width)
    ensures FinalsAreBatches(prior + [tick], finals + [closed], BucketOf(tick.time, width), width)
  {
    hide BucketOf, PricesIn, Batch;
    var ticks := prior + [tick];
    var longer := finals + [closed];
    forall i | 0 <= i < |longer|
      ensures longer[i].openTime < BucketOf(tick.time, width) && IsBatch(ticks, longer[i], width)
    {
      PricesOfOneMore(prior, tick, longer[i].openTime, width);
    }
    forall k | 0 <= k < |ticks| && Accepted(ticks, k, width) && BucketOf(ticks[k].time, width) != BucketOf(tick.time, width)
      ensures Finalized(longer, BucketOf(ticks[k].time, width))
    {
      EarlierAcceptance(prior, tick, k, width);
      assert ticks[k] == prior[k];
      var bucket := BucketOf(ticks[k].time, width);
      if bucket == closed.openTime {
        assert longer[|finals|].openTime == bucket;
      } else {
        var i :| 0 <= i < |finals| && finals[i].openTime == bucket;
        assert longer[i].openTime == bucket;
      }
    }
  }

  lemma NewestStays(prior: seq<Tick>, tick: Tick, bucket: int, width: nat)
    requires width > 0 && NewestSoFar(prior, bucket, width) && (tick.price > 0.0 ==> BucketOf(tick.time, width) <= bucket)
    ensures NewestSoFar(prior + [tick], bucket, width)
  {
  }

  lemma IgnoredTick(prior: seq<Tick>, tick: Tick, b: Option<Bucket>, updates: seq<Report>, width: nat)
    requires width > 0 && Refines(prior, b, updates, width)
    requires tick.price <= 0.0 || (b.Some? && BucketOf(tick.time, width) < b.value.openTime)
    ensures Refines(prior + [tick], b, updates, width)
  {
    hide BucketOf, PricesIn, Batch;
    AcceptedByBucket(prior, tick, b, updates, width);
    hide Accepted;
    if b.Some? {
      PricesOfOneMore(prior, tick, b.value.openTime, width);
      FinalsStay(prior, tick, Finals(updates), b.value.openTime, width);
      NewestStays(prior, tick, b.value.openTime, width);
    }
  }

  lemma TickOfNewest(prior: seq<Tick>, tick: Tick, b: Bucket, updates: seq<Report>, width: nat)
    requires width > 0 && Refines(prior, Some(b), updates, width) && tick.price > 0.0
    requires BucketOf(tick.time, width) == b.openTime
    ensures var next := Bucket(b.openTime, Updated(b.ohlcv, tick.price));
            Refines(prior + [tick], Some(next), updates + [Current(next, false)], width)
  {
    hide BucketOf, PricesIn, Batch, Updated, Finals;
    var next := Bucket(b.openTime, Updated(b.ohlcv, tick.price));
    AcceptedByBucket(prior, tick, Some(b), updates, width);
    hide Accepted;
    PricesOfOneMore(prior, tick, b.openTime, width);
    BatchOfOneMore(PricesIn(prior, b.openTime, width), tick.price);
    FinalsStay(prior, tick, Finals(updates), b.openTime, width);
    FinalsOfOneMore(updates, Current(next, false));
    NewestStays(prior, tick, b.openTime, width);
  }

  lemma NewBucketIsBatch(prior: seq<Tick>, tick: Tick, b: Option<Bucket>, updates: seq<Report>, width: nat)
    requires width > 0 && Refines(prior, b, updates, width) && tick.price > 0.0
    requires b.Some? ==> b.value.openTime < BucketOf(tick.time, width)
    ensures IsBatch(prior + [tick], Bucket(BucketOf(tick.time, width), Opened(tick.price)), width)
  {
    hide BucketOf, PricesIn, Batch, Opened, FinalsAreBatches;
    NothingYet(prior, b, updates, BucketOf(tick.time, width), width);
    AcceptedByBucket(prior, tick, b, updates, width);
    PricesOfOneMore(prior, tick, BucketOf(tick.time, width), width);
    BatchOfOneMore([], tick.price);
    assert [] + [tick.price] == [tick.price];
  }

  lemma FirstTick(prior: seq<Tick>, tick: Tick, updates: seq<Report>, width: nat)
    requires width > 0 && Refines(prior, None, updates, width) && tick.price > 0.0
    ensures var next := Bucket(BucketOf(tick.time, width), Opened(tick.price));
            Refines(prior + [tick], Some(next), updates + [Current(next, false)], width)
  {
    var next := Bucket(BucketOf(tick.time, width), Opened(tick.price));
    hide BucketOf, Opened, Finals, IsBatch, FinalsAreBatches;
    NewBucketIsBatch(prior, tick, None, updates, width);
    NewestStays(prior, tick, next.openTime, width);
    FirstTickHasNoFinals(prior, tick, width);
    NoFinalsYet(next);
    assert updates + [Current(next, false)] == [Current(next, false)];
  }

  lemma NoFinalsYet(next: Bucket)
    ensures Finals([Current(next, false)]) == []
  {
    FinalsOfOneMore([], Current(next, false));
    assert [] + [Current(next, false)] == [Current(next, false)];
  }

  lemma TickOfNewBucket(prior: seq<Tick>, tick: Tick, b: Bucket, updates: seq<Report>, width: nat)
    requires width > 0 && Refines(prior, Some(b), updates, width) && tick.price > 0.0
    requires b.openTime < BucketOf(tick.time, width)
    ensures var next := Bucket(BucketOf(tick.time, width), Opened(tick.price));
            Refines(prior + [tick], Some(next), updates + [Current(b, true), Current(next, false)], width)
  {
    var next := Bucket(BucketOf(tick.time, width), Opened(tick.price));
    hide BucketOf, Opened, Finals, IsBatch, FinalsAreBatches, NewestSoFar;
    NewBucketIsBatch(prior, tick, Some(b), updates, width);
    NewestStays(prior, tick, next.openTime, width);
    FinalsExtend(prior, tick, Finals(updates), b, width);
    FinalsOfClosing(updates, b, next);
  }

  lemma FinalsOfClosing(updates: seq<Report>, b: Bucket, next: Bucket)
    ensures var longer := updates + [Current(b, true), Current(next, false)];
            Finals(longer) == Finals(updates) + [b] && longer[|longer| - 1] == Current(next, false)
  {
    FinalsOfOneMore(updates, Current(b, true));
    FinalsOfOneMore(updates + [Current(b, true)], Current(next, false));
    assert updates + [Current(b, true), Current(next, false)] == updates + [Current(b, true)] + [Current(next, false)];
  }

  lemma FirstTickHasNoFinals(prior: seq<Tick>, tick: Tick, width: nat)
    requires width > 0 && forall k :: 0 <= k < |prior| ==> prior[k].price <= 0.0
    ensures FinalsAreBatches(prior + [tick], [], BucketOf(tick.time, width), width)
  {
  }

  lemma OneMoreTick(prior: seq<Tick>, tick: Tick, b: Option<Bucket>, updates: seq<Report>, width: nat)
    requires width > 0 && Refines(prior, b, updates, width)
    ensures var (next, more) := AddTick(b, tick, width);
            Refines(prior + [tick], next, updates + more, width)
  {
    hide Refines, BucketOf;
    var here := BucketOf(tick.time, width);
    if tick.price <= 0.0 || (b.Some? && here < b.value.openTime) {
      IgnoredTick(prior, tick, b, updates, width);
      assert updates + [] == updates;
    } else if b.Some? && here == b.value.openTime {
      TickOfNewest(prior, tick, b.value, updates, width);
    } else if b.Some? {
      TickOfNewBucket(prior, tick, b.value, updates, width);
    } else {
      FirstTick(prior, tick, updates, width);
    }
  }

  /** For any ticks, in any order: the updates marked final are the batch candles of their buckets,
      in strictly increasing order and so at most one a bucket, every bucket but the newest has one,
      and the latest update is the provisional batch candle of the newest bucket. */
  lemma {:induction false} StreamingRefinesBatch(ticks: seq<Tick>, width: nat)
    requires width > 0
    ensures var (b, updates) := AddAll(ticks, width);
            Refines(ticks, b, updates, width)
  {
    if ticks != [] {
      var prior := ticks[..|ticks| - 1];
      StreamingRefinesBatch(prior, width);
      var (b, updates) := AddAll(prior, width);
      OneMoreTick(prior, ticks[|ticks| - 1], b, updates, width);
      assert prior + [ticks[|ticks| - 1]] == ticks;
    }
  }
}
