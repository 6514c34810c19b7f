/** The data of `ExoPlayerWrapper`: its logical playback state, the flag the
    engine callbacks overwrite, the optional listener, a view of the commands
    the wrapper has issued to the engine, and the abstract progress timer.
    Also the listener's point of view on a sequence of emitted events. */
module PlayerModel {
  import opened Results
  import opened KotlinNumbers

  /** `MusicPlayerState`: the wrapper's logical mode. */
  datatype MusicPlayerState = Standby | Play | Pause

  /** `Player.REPEAT_MODE_OFF` and `Player.REPEAT_MODE_ONE`. */
  datatype RepeatMode = RepeatOff | RepeatOne

  /** What the wrapper has told the engine it built in `initExoPlayer`:
      the media it prepared, the last `playWhenReady` it set, the last
      position it sought to (in ms), the repeat mode, and whether `stop()`
      was called on it. */
  datatype Engine = Engine(
    uri: string,
    playWhenReady: bool,
    lastSeekMs: Option<Int64>,
    repeatMode: RepeatMode,
    stopped: bool)

  /** The last command the wrapper gave a `PausableTimer`: `start()` or
      `resume()`, `pause()`, or `stop()`. It records what the wrapper asked
      for, not how the timer reacts to it. */
  datatype TimerStatus = Running | Paused | Stopped

  /** A `PausableTimer(totalMs, intervalMs)` as the wrapper built it, with
      the last command given to it. */
  datatype Timer = Timer(totalMs: int, intervalMs: int, status: TimerStatus)

  /** The tick interval every timer of the wrapper is built with. */
  const TickIntervalMs: int := 1000

  /** The fields of `ExoPlayerWrapper`. `engine` and `timer` are the
      `lateinit` fields: `None` until first assigned. */
  datatype Wrapper = Wrapper(
    playerState: MusicPlayerState,
    isPlaying: bool,
    hasListener: bool,
    engine: Option<Engine>,
    timer: Option<Timer>)

  /** The calls made on `PlayerEventListener`, with their arguments. */
  datatype Event =
    | StateChanged(state: MusicPlayerState)
    | DurationChanged(seconds: int)
    | CurrentTime(seconds: int)
    | BufferPercentage(percent: int)

  /** The new wrapper fields and the listener calls made, in order. */
  datatype Step = Step(w: Wrapper, events: seq<Event>)

  /** The exception `play(uri)` throws while already playing. */
  datatype PlayerError = AlreadyPlaying

  /** `listener?.f(e)`: the call is made only when a listener is set. */
  function Notify(w: Wrapper, e: Event): (es: seq<Event>)
    ensures |es| <= 1
    ensures es != [] <==> w.hasListener
    ensures forall x :: x in es ==> x == e
    ensures Announced(es) == (if w.hasListener && e.StateChanged? then [e.state] else [])
  {
    if w.hasListener then assert [e][1..] == []; [e] else []
  }

  /** The states a listener is told about by `events`, in order. */
  function Announced(events: seq<Event>): seq<MusicPlayerState>
  {
    if events == [] then []
    else (if events[0].StateChanged? then [events[0].state] else []) + Announced(events[1..])
  }

  lemma {:induction false} AnnouncedAppend(a: seq<Event>, b: seq<Event>)
    ensures Announced(a + b) == Announced(a) + Announced(b)
  {
    if a == [] {
      assert a + b == b;
    } else {
      assert (a + b)[0] == a[0];
      assert (a + b)[1..] == a[1..] + b;
      AnnouncedAppend(a[1..], b);
    }
  }

  /** A listener that last believed the state was `seen` and is then told
      the states `announced` is never told a state it already believes,
      and ends up believing `final`. */
  predicate Tracks(seen: MusicPlayerState, announced: seq<MusicPlayerState>, final: MusicPlayerState)
    decreases |announced|
  {
    if announced == [] then seen == final
    else announced[0] != seen && Tracks(announced[0], announced[1..], final)
  }

  lemma {:induction false} TracksAppend(
    a: MusicPlayerState, x: seq<MusicPlayerState>, b: MusicPlayerState,
    y: seq<MusicPlayerState>, c: MusicPlayerState)
    requires Tracks(a, x, b) && Tracks(b, y, c)
    ensures Tracks(a, x + y, c)
    decreases |x|
  {
    if x == [] {
      assert x + y == y;
    } else {
      assert (x + y)[0] == x[0];
      assert (x + y)[1..] == x[1..] + y;
      TracksAppend(x[0], x[1..], b, y, c);
    }
  }

  /** A step keeps a listener in step with the logical state: it announces
      nothing and leaves the state alone, or announces exactly the new,
      different state. */
  predicate Announces(before: MusicPlayerState, s: Step)
  {
    || (Announced(s.events) == [] && s.w.playerState == before)
    || (Announced(s.events) == [s.w.playerState] && s.w.playerState != before)
  }

  lemma AnnouncesTracks(before: MusicPlayerState, s: Step)
    requires Announces(before, s)
    ensures Tracks(before, Announced(s.events), s.w.playerState)
  {
  }

  /** What holds of every wrapper reachable through calls and callbacks
      whose `lateinit` fields are initialised: there is no timer without an
      engine, the state is `Standby`
      until an engine exists, and the last `playWhenReady` the wrapper set
      agrees with `Play` and `Pause` (an engine-reported end of media can
      leave `Standby` with `playWhenReady` still set). */
  predicate Coherent(w: Wrapper)
  {
    && (w.timer.Some? ==> w.engine.Some?)
    && (w.engine.None? ==> w.playerState == Standby)
    && (w.engine.Some? && w.playerState == Play ==> w.engine.value.playWhenReady)
    && (w.engine.Some? && w.playerState == Pause ==> !w.engine.value.playWhenReady)
  }

  /** The number of seconds `sec` as `sec.times(1000).toLong()`: an `Int`
      product, so it wraps at 32 bits before widening. */
  function SecondsToMillis(sec: Int32): (ms: Int32)
    ensures -2147483 <= sec <= 2147483 ==> ms == sec * 1000
    ensures (sec * 1000 - ms) % TwoTo32 == 0
  {
    WrapInt32(sec * 1000)
  }

  /** The milliseconds `ms` as `ms.div(1000).toInt()`: whole seconds
      rounded toward zero, then cut to 32 bits. */
  function MillisToSeconds(ms: Int64): (sec: Int32)
    ensures (TruncDiv(ms, 1000) - sec) % TwoTo32 == 0
    ensures 0 <= ms < 1000 * TwoTo32 / 2 ==> sec * 1000 <= ms < sec * 1000 + 1000
    ensures -1000 * TwoTo32 / 2 < ms < 0 ==> sec * 1000 - 1000 < ms <= sec * 1000
  {
    WrapInt32(TruncDiv(ms, 1000))
  }

  /** Seconds sent to the engine by `seekTo` read back as the same seconds,
      as long as the product fits in an `Int`. */
  lemma SecondsRoundTrip(sec: Int32)
    requires -2147483 <= sec <= 2147483
    ensures MillisToSeconds(SecondsToMillis(sec)) == sec
  {
  }

  /** Past 2147483 seconds the `Int` product wraps: from 2147484 to
      4294967 seconds the engine is sent a negative position, and past that
      the product wraps round again to small positive positions. */
  lemma SecondsToMillisWraps()
    ensures SecondsToMillis(2147484) == -2147483296
    ensures SecondsToMillis(4294967) == -296
    ensures SecondsToMillis(4294968) == 704
  {
  }
}
