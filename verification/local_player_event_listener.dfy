/** `LocalPlayerEventListener`, the engine callbacks the wrapper installs on
    each engine it builds, and the tick and finish callbacks it installs on
    each timer. Callbacks are modelled as ordinary sequential transitions;
    values read from the engine at callback time (the buffered percentage,
    the duration) are parameters. */
module LocalPlayerEventListener {
  import opened Results
  import opened KotlinNumbers
  import opened PlayerModel
  import ExoPlayerWrapper

  /** `Player.STATE_ENDED` of the engine library. */
  const StateEnded: int := 4

  /** `onPlayerStateChanged(playWhenReady, playbackState)`: `isPlaying`
      takes the engine's `playWhenReady`; the end of media moves the state
      to `Standby` (with at most one notification); any other engine state
      leaves the logical state and everything else untouched. */
  function OnPlayerStateChanged(w: Wrapper, playWhenReady: bool, playbackState: int): (r: Step)
    requires w.engine.Some?
    ensures r.w.isPlaying == playWhenReady
    ensures r.w.playerState == (if playbackState == StateEnded then Standby else w.playerState)
    ensures r.w.engine == w.engine && r.w.timer == w.timer && r.w.hasListener == w.hasListener
    ensures playbackState != StateEnded ==> r.events == []
    ensures playbackState == StateEnded ==>
              r.events == (if w.playerState != Standby then Notify(w, StateChanged(Standby)) else [])
    ensures w.hasListener ==> Announces(w.playerState, r)
  {
    var w1 := w.(isPlaying := playWhenReady);
    if playbackState == StateEnded then ExoPlayerWrapper.SetPlayerState(w1, Standby)
    else Step(w1, [])
  }

  /** `onLoadingChanged`: the engine's buffered percentage is forwarded to
      the listener unchanged; the wrapper does not change. */
  function OnLoadingChanged(w: Wrapper, bufferedPercentage: int): (r: Step)
    requires w.engine.Some?
    ensures r.w == w
    ensures r.events == (if w.hasListener then [BufferPercentage(bufferedPercentage)] else [])
  {
    Step(w, Notify(w, BufferPercentage(bufferedPercentage)))
  }

  /** `onTimelineChanged`: a known (positive) duration is reported in whole
      seconds; whatever the duration, the timer slot is replaced by a new,
      started timer for that duration with a one-second interval. The
      logical state, the engine and the listener are not touched. */
  function OnTimelineChanged(w: Wrapper, durationMs: Int64): (r: Step)
    requires w.engine.Some?
    ensures r.w == w.(timer := Some(Timer(durationMs, TickIntervalMs, Running)))
    ensures durationMs <= 0 ==> r.events == []
    ensures durationMs > 0 ==> r.events == Notify(w, DurationChanged(MillisToSeconds(durationMs)))
    ensures 0 < durationMs < 1000 * TwoTo32 / 2 && w.hasListener ==>
              r.events == [DurationChanged(durationMs / 1000)]
  {
    var events := if durationMs > 0 then Notify(w, DurationChanged(MillisToSeconds(durationMs))) else [];
    Step(w.(timer := Some(Timer(durationMs, TickIntervalMs, Running))), events)
  }

  /** The timer's `onTick(millisUntilFinished)`: the remaining time is
      reported in whole seconds, rounded toward zero. The closure does not
      look at which timer fires it, so a superseded timer that is still
      ticking reports through the same listener. */
  function OnTimerTick(w: Wrapper, millisUntilFinished: Int64): (r: Step)
    ensures r.w == w
    ensures r.events == Notify(w, CurrentTime(MillisToSeconds(millisUntilFinished)))
    ensures 0 <= millisUntilFinished < 1000 * TwoTo32 / 2 && w.hasListener ==>
              r.events == [CurrentTime(millisUntilFinished / 1000)]
  {
    Step(w, Notify(w, CurrentTime(MillisToSeconds(millisUntilFinished))))
  }

  /** The timer's `onFinish`: the engine's duration, read when the timer
      finishes, is reported in whole seconds; the remaining time (zero) is
      not what is reported. */
  function OnTimerFinish(w: Wrapper, engineDurationMs: Int64): (r: Step)
    ensures r.w == w
    ensures r.events == Notify(w, CurrentTime(MillisToSeconds(engineDurationMs)))
    ensures 0 <= engineDurationMs < 1000 * TwoTo32 / 2 && w.hasListener ==>
              r.events == [CurrentTime(engineDurationMs / 1000)]
  {
    Step(w, Notify(w, CurrentTime(MillisToSeconds(engineDurationMs))))
  }

  /** For media of at least one second whose duration the engine still
      reports at the end, the finish report is the full duration, the same
      number of seconds the timeline callback announced, and not zero. */
  lemma FinishReportsTotalDuration(w: Wrapper, durationMs: Int64)
    requires w.engine.Some? && w.hasListener
    requires 1000 <= durationMs < 1000 * TwoTo32 / 2
    ensures OnTimelineChanged(w, durationMs).events == [DurationChanged(durationMs / 1000)]
    ensures OnTimerFinish(OnTimelineChanged(w, durationMs).w, durationMs).events
              == [CurrentTime(durationMs / 1000)]
    ensures durationMs / 1000 != 0
  {
  }
}
