/**
 * The sliding-window message-rate rule of the spam filter, for one author in
 * one moderated channel. Timestamps are integer milliseconds.
 */
module RateWindow {
  import opened Wrappers
  import opened Filtering

  /** Length of the trailing window over which messages are counted. */
  const TIMESPAN_MILLISECONDS: int := 7000
  /** A message is filtered once the count in the window, itself included, reaches this. */
  const MESSAGE_COUNT_LIMIT: int := 3

  /** The test applied to a stored timestamp when a message is evaluated at `now`. */
  function InWindow(now: int): int -> bool {
    t => now - t <= TIMESPAN_MILLISECONDS
  }

  /** The stored timestamps still inside the window at `now`, in arrival order. */
  function Prune(history: seq<int>, now: int): (r: seq<int>)
    ensures |r| <= |history|
    ensures forall t :: t in r ==> t in history && now - t <= TIMESPAN_MILLISECONDS
  {
    FilterSoundAll(history, InWindow(now));
    Filter(history, InWindow(now))
  }

  /**
   * The loop that walks the stored history, keeps the recent entries and counts
   * them together with the incoming message.
   */
  method PruneHistory(history: seq<int>, now: int) returns (updated: seq<int>, messageCount: int)
    ensures updated == Prune(history, now)
    ensures messageCount == 1 + |updated|
  {
    messageCount := 1;
    updated := [];
    for i := 0 to |history|
      invariant updated == Prune(history[..i], now)
      invariant messageCount == 1 + |updated|
    {
      var timestampOld := history[i];
      assert history[..i + 1][..i] == history[..i];
      if now - timestampOld <= TIMESPAN_MILLISECONDS {
        updated := updated + [timestampOld];
        messageCount := messageCount + 1;
      }
    }
    assert history[..|history|] == history;
  }

  /** How one message was classified. */
  datatype Verdict =
    | FirstMessage          // the author had no history: an empty one is created, nothing is filtered
    | Allowed(count: int)   // below the limit: the message time is appended
    | Filtered(count: int)  // at or above the limit: only the recent prior entries are kept

  datatype Evaluation = Evaluation(verdict: Verdict, stored: seq<int>)

  /**
   * Evaluation of a message sent at `messageTime` and handled at `now`, given the
   * author's stored history in this channel (None when the author has none).
   */
  function Evaluate(history: Option<seq<int>>, now: int, messageTime: int): (r: Evaluation)
    ensures r.verdict.FirstMessage? <==> history.None?
    ensures history.None? ==> r.stored == []
    ensures r.verdict.Allowed? ==>
      1 <= r.verdict.count < MESSAGE_COUNT_LIMIT && |r.stored| == r.verdict.count && r.stored[|r.stored| - 1] == messageTime
    ensures r.verdict.Filtered? ==> r.verdict.count >= MESSAGE_COUNT_LIMIT && |r.stored| == r.verdict.count - 1
    ensures history.Some? ==>
      forall t :: t in r.stored ==> t == messageTime || (t in history.value && now - t <= TIMESPAN_MILLISECONDS)
  {
    match history
    case None => Evaluation(FirstMessage, [])
    case Some(h) =>
      var retained := Prune(h, now);
      var count := 1 + |retained|;
      if count < MESSAGE_COUNT_LIMIT then Evaluation(Allowed(count), retained + [messageTime])
      else Evaluation(Filtered(count), retained)
  }

  /** An author with two messages inside the window is filtered on the third. */
  lemma TwoRecentThenFiltered(h: seq<int>, now: int, messageTime: int)
    requires |h| == 2
    requires forall i :: 0 <= i < |h| ==> now - h[i] <= TIMESPAN_MILLISECONDS
    ensures Evaluate(Some(h), now, messageTime) == Evaluation(Filtered(3), h)
  {
    FilterAllKept(h, InWindow(now));
  }

  /** A history that has entirely aged out is discarded and the message is allowed. */
  lemma StaleHistoryAllowed(h: seq<int>, now: int, messageTime: int)
    requires forall i :: 0 <= i < |h| ==> now - h[i] > TIMESPAN_MILLISECONDS
    ensures Evaluate(Some(h), now, messageTime) == Evaluation(Allowed(1), [messageTime])
  {
    FilterNoneKept(h, InWindow(now));
  }

  /** Evaluation never lengthens a history past MESSAGE_COUNT_LIMIT - 1 entries. */
  lemma EvaluateBound(history: Option<seq<int>>, now: int, messageTime: int)
    requires history.Some? ==> |history.value| < MESSAGE_COUNT_LIMIT
    ensures |Evaluate(history, now, messageTime).stored| < MESSAGE_COUNT_LIMIT
  {
  }
}
