/**
 * The bounded per-symbol sentiment history kept by get_sentiment: each new
 * reading is appended, and the oldest one is dropped once the list holds more
 * than `sentiment_window` readings.
 */
module History {
  import opened Domain

  /** One append followed by at most one eviction from the front. */
  function PushBounded(h: seq<Observation>, o: Observation, window: nat): (r: seq<Observation>)
    // at most the single oldest entry is dropped, and only when the window overflows
    ensures |r| == |h| + 1 || |r| == |h|
    ensures |r| == |h| + 1 <==> |h| + 1 <= window
    // the result is a suffix of h + [o]: the new reading is last and older ones keep their order
    ensures r == (h + [o])[|h| + 1 - |r|..]
    ensures |h| <= window ==> |r| <= window
  {
    var appended := h + [o];
    if |appended| > window then appended[1..] else appended
  }

  /** The newest `window` entries of `s` (all of `s` when it is short enough). */
  function Newest(s: seq<Observation>, window: nat): (r: seq<Observation>)
    ensures |r| == if |s| <= window then |s| else window
    ensures r == s[|s| - |r|..]
  {
    if |s| <= window then s else s[|s| - window..]
  }

  /** Pushing a sequence of readings one after the other. */
  function PushAll(h: seq<Observation>, os: seq<Observation>, window: nat): seq<Observation>
    decreases |os|
  {
    if os == [] then h else PushAll(PushBounded(h, os[0], window), os[1..], window)
  }

  /**
   * However many readings arrive, a history that starts within the window
   * always holds exactly the newest `window` of everything seen, oldest first.
   */
  lemma {:induction false} PushAllKeepsNewest(h: seq<Observation>, os: seq<Observation>, window: nat)
    requires |h| <= window
    ensures PushAll(h, os, window) == Newest(h + os, window)
    decreases |os|
  {
    if os == [] {
      assert h + os == h;
    } else {
      var h' := PushBounded(h, os[0], window);
      assert h' == Newest(h + [os[0]], window);
      PushAllKeepsNewest(h', os[1..], window);
      assert h' + os[1..] == Newest(h + [os[0]], window) + os[1..];
      assert h + os == (h + [os[0]]) + os[1..];
      NewestSlide(h + [os[0]], os[1..], window);
    }
  }

  /** Keeping the newest entries early or late gives the same result. */
  lemma NewestSlide(s: seq<Observation>, t: seq<Observation>, window: nat)
    ensures Newest(Newest(s, window) + t, window) == Newest(s + t, window)
  {
    var n := Newest(s, window);
    assert n + t == (s + t)[|s| - |n|..];
  }

  /**
   * The reading get_sentiment returns for `symbol`. `news` is None when
   * fetching the news failed; an empty list means there was no news; a
   * symbol without a history makes the append fail, which is caught.
   */
  function Reading(history: map<string, seq<Observation>>, symbol: string,
                   news: Option<seq<string>>, oracle: seq<string> -> Observation): (r: Observation)
    ensures news.None? || news.value == [] ==> r == NoSentiment
    ensures news.Some? && news.value != [] && symbol in history ==> r == oracle(news.value)
    ensures symbol !in history ==> r == NoSentiment
  {
    if news.None? || news.value == [] || symbol !in history then NoSentiment
    else oracle(news.value)
  }

  /** The histories after get_sentiment for `symbol`. */
  function HistoryAfter(history: map<string, seq<Observation>>, symbol: string,
                        news: Option<seq<string>>, oracle: seq<string> -> Observation,
                        window: nat): (r: map<string, seq<Observation>>)
    ensures r.Keys == history.Keys
    ensures forall s :: s in history && s != symbol ==> r[s] == history[s]
    // the no-news path leaves every history as it was
    ensures news.None? || news.value == [] ==> r == history
    ensures news.Some? && news.value != [] && symbol in history ==>
              r[symbol] == PushBounded(history[symbol], oracle(news.value), window)
  {
    if news.None? || news.value == [] || symbol !in history then history
    else history[symbol := PushBounded(history[symbol], oracle(news.value), window)]
  }
}
