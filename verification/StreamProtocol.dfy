/** The resume decision of a reconnecting client
    (app/market_data/infrastructure/stream_protocol.py). */
module StreamProtocol {
  import opened Wrappers
  import opened CandleStream

  datatype ResumeMode = Fresh | Replayed | GapFillRequired
  datatype ResumeRequest = ResumeRequest(lastSequence: Option<int>, feedStartedAt: Option<int>)
  datatype ResumeDecision = ResumeDecision(mode: ResumeMode, events: seq<Event>)

  /** The events after a sequence number, in order. */
  function After(events: seq<Event>, last: int): seq<Event> {
    if events == [] then []
    else
      var newest := events[|events| - 1];
      After(events[..|events| - 1], last) + if newest.sequence > last then [newest] else []
  }

  function DecideResume(request: ResumeRequest, feedStartedAt: int, buffered: seq<Event>): ResumeDecision {
    if request.lastSequence.None? || request.feedStartedAt.None? then ResumeDecision(Fresh, buffered)
    else if feedStartedAt > request.feedStartedAt.value then ResumeDecision(GapFillRequired, [])
    else if buffered != [] && buffered[0].sequence > request.lastSequence.value + 1 then ResumeDecision(GapFillRequired, [])
    else ResumeDecision(Replayed, After(buffered, request.lastSequence.value))
  }

  // ----- a feed's history and what its ring buffer holds of it -----

  /** All events of one feed incarnation, numbered from 0. */
  predicate Numbered(history: seq<Event>) {
    forall i :: 0 <= i < |history| ==> history[i].sequence == i
  }

  function Least(x: nat, y: nat): nat { if x <= y then x else y }

  /** Where the ring buffer of a history begins. */
  function RingStart(history: seq<Event>, size: nat): nat { |history| - Least(|history|, size) }

  function RingOf(history: seq<Event>, size: nat): seq<Event> { history[RingStart(history, size)..] }

  lemma RingPush(history: seq<Event>, event: Event, size: nat)
    requires size >= 1
    ensures PushRing(RingOf(history, size), event, size) == RingOf(history + [event], size)
  {
    var longer := history + [event];
    if |history| < size {
      assert RingOf(history, size) == history && RingOf(longer, size) == longer;
    } else {
      var start := |history| - size;
      assert RingOf(history, size) == history[start..];
      assert history[start..][1..] == history[start + 1..];
      assert longer[start + 1..] == history[start + 1..] + [event];
    }
  }

  lemma {:induction false} AfterSlice(history: seq<Event>, start: nat, n: nat, last: int)
    requires Numbered(history) && start <= n <= |history|
    ensures var cut := if last + 1 <= start then start else if last + 1 <= n then last + 1 else n;
            After(history[start..n], last) == history[cut..n]
  {
    if start < n {
      AfterSlice(history, start, n - 1, last);
      var events := history[start..n];
      assert events[..|events| - 1] == history[start..n - 1];
      assert events[|events| - 1] == history[n - 1];
    }
  }

  /** Whatever is replayed is the newest part of the history. */
  lemma ReplayIsNewest(history: seq<Event>, size: nat, request: ResumeRequest, startedAt: int)
    requires Numbered(history)
    ensures var d := DecideResume(request, startedAt, RingOf(history, size));
            |d.events| <= |history| && d.events == history[|history| - |d.events|..]
  {
    var start := RingStart(history, size);
    assert history[start..|history|] == RingOf(history, size);
    if request.lastSequence.Some? {
      AfterSlice(history, start, |history|, request.lastSequence.value);
    }
  }

  /** The decision for a client of the same incarnation that remembers `last` and still needs the
      events from `n` on. Gap fill is demanded exactly when the buffer no longer covers `last + 1`,
      and then nothing is replayed; a replay delivers exactly what is missing if and only if `last`
      is the number just before `n`, or nothing is missing and `last` is not behind. */
  lemma ResumeIsExact(history: seq<Event>, size: nat, n: nat, last: int, startedAt: int)
    requires Numbered(history) && size >= 1 && n <= |history|
    ensures var d := DecideResume(ResumeRequest(Some(last), Some(startedAt)), startedAt, RingOf(history, size));
            && (d.mode == GapFillRequired <==> |history| > 0 && RingStart(history, size) > last + 1)
            && (d.mode == GapFillRequired ==> d.events == [])
            && d.mode != Fresh
            && (d.mode == Replayed ==>
                  (d.events == history[n..] <==> last + 1 == n || (n == |history| && (last >= n || n == 0))))
  {
    var ring := RingOf(history, size);
    var d := DecideResume(ResumeRequest(Some(last), Some(startedAt)), startedAt, ring);
    var start := RingStart(history, size);
    AfterSlice(history, start, |history|, last);
    assert history[start..|history|] == ring;
    if |history| > 0 {
      assert ring[0] == history[start];
    }
    if d.mode == Replayed {
      var cut := if last + 1 <= start then start else if last + 1 <= |history| then last + 1 else |history|;
      assert d.events == history[cut..|history|];
      assert |d.events| == |history| - cut;
      assert |history[n..]| == |history| - n;
    }
  }
}
