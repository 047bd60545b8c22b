/**
 * The playback window of the current phrase (widgets/learning_widget.py,
 * `play_current_phrase`) and the rule that stops playback near its end
 * (`_on_position_changed`). Times are in integer milliseconds, as the
 * program keeps them.
 */
module Playback {
  import opened Wrappers

  // Window length forced when a phrase ends before it starts.
  const MinWindowMs: int := 2000
  // End time assumed when the media duration is not yet known.
  const UnknownDurationEndMs: int := 10000
  // Playback stops this many milliseconds before the phrase end.
  const StopMarginMs: int := 50
  // Value of the window fields while no phrase is being played.
  const NoWindow: int := -1

  /** Start and end of a phrase in seconds; either may be absent from the song data. */
  datatype PhraseTiming = PhraseTiming(startTime: Option<real>, endTime: Option<real>)

  /** Python's `int()` on a float: truncation toward zero. */
  function Truncate(x: real): (r: int)
    ensures x >= 0.0 ==> r as real <= x < r as real + 1.0
    ensures x < 0.0 ==> r as real - 1.0 < x <= r as real
  {
    if x >= 0.0 then x.Floor else -((-x).Floor)
  }

  function SecondsToMs(t: real): int
  {
    Truncate(t * 1000.0)
  }

  /** Start of the phrase in milliseconds; a missing start is 0. */
  function RawStartMs(p: PhraseTiming): int
  {
    match p.startTime
    case None => 0
    case Some(t) => SecondsToMs(t)
  }

  /**
   * End of the phrase in milliseconds; a missing end is the media duration
   * when it is known (positive) and 10 seconds otherwise.
   */
  function RawEndMs(p: PhraseTiming, durationMs: int): int
  {
    match p.endTime
    case None => if durationMs > 0 then durationMs else UnknownDurationEndMs
    case Some(t) => SecondsToMs(t)
  }

  datatype Window = Window(startMs: int, endMs: int)

  /**
   * The window played for a phrase: an end before the start is moved to
   * start + 2000, then, when the duration is known, both ends are capped
   * at the duration.
   */
  function PlaybackWindow(p: PhraseTiming, durationMs: int): (w: Window)
    ensures w.startMs <= w.endMs
    ensures durationMs > 0 ==> w.endMs <= durationMs
    ensures durationMs <= 0 ==> w.startMs == RawStartMs(p)
    ensures durationMs > 0 ==> w.startMs == Min(RawStartMs(p), durationMs)
    ensures RawStartMs(p) <= RawEndMs(p, durationMs) && (durationMs <= 0 || RawEndMs(p, durationMs) <= durationMs)
            ==> w == Window(RawStartMs(p), RawEndMs(p, durationMs))
    ensures RawEndMs(p, durationMs) < RawStartMs(p) && (durationMs <= 0 || RawStartMs(p) + MinWindowMs <= durationMs)
            ==> w.endMs - w.startMs == MinWindowMs
    ensures durationMs > 0 && RawStartMs(p) <= RawEndMs(p, durationMs) && RawEndMs(p, durationMs) > durationMs
            ==> w.endMs == durationMs
    ensures durationMs > 0 && RawEndMs(p, durationMs) < RawStartMs(p) && RawStartMs(p) + MinWindowMs > durationMs
            ==> w.endMs == durationMs
  {
    var s := RawStartMs(p);
    var e0 := RawEndMs(p, durationMs);
    var e := if e0 < s then s + MinWindowMs else e0;
    if durationMs > 0 then Window(Min(s, durationMs), Min(e, durationMs)) else Window(s, e)
  }

  /** The stop rule: while playing a phrase, stop once within 50 ms of its end. */
  predicate StopsPlayback(playing: bool, position: int, endMs: int)
  {
    playing && endMs != NoWindow && position >= endMs - StopMarginMs
  }

  /**
   * Once playback of a window is due to stop it stays due as the position
   * advances, and the first position at which it stops is 50 ms before the end.
   */
  lemma StopRuleThreshold(endMs: int, p1: int, p2: int)
    requires endMs != NoWindow && p1 <= p2
    ensures StopsPlayback(true, p1, endMs) ==> StopsPlayback(true, p2, endMs)
    ensures StopsPlayback(true, endMs - StopMarginMs, endMs)
    ensures !StopsPlayback(true, endMs - StopMarginMs - 1, endMs)
    ensures !StopsPlayback(false, p1, endMs) && !StopsPlayback(true, p1, NoWindow)
  {
  }
}
