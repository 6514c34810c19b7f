/** The public control operations of `ExoPlayerWrapper`, each a pure
    transition from the wrapper's fields to the new fields plus the listener
    calls it makes. Operations that touch the `lateinit` engine or timer
    require them to be initialised. */
module ExoPlayerWrapper {
  import opened Results
  import opened KotlinNumbers
  import opened PlayerModel

  /** A freshly constructed wrapper: `Standby`, not playing, no listener,
      neither engine nor timer initialised. */
  function NewWrapper(): (w: Wrapper)
    ensures w.playerState == Standby && !w.isPlaying && !w.hasListener
    ensures w.engine.None? && w.timer.None?
    ensures Coherent(w)
  {
    Wrapper(Standby, false, false, None, None)
  }

  /** `setPlayerState`: the state always ends up `s` and nothing else
      changes; the listener is told exactly once, with `s`, when `s` is a
      genuine change and a listener is set, and never otherwise. */
  function SetPlayerState(w: Wrapper, s: MusicPlayerState): (r: Step)
    ensures r.w == w.(playerState := s)
    ensures |r.events| <= 1
    ensures r.events != [] <==> s != w.playerState && w.hasListener
    ensures forall e :: e in r.events ==> e == StateChanged(s)
    ensures w.hasListener ==> Announces(w.playerState, r)
  {
    if s != w.playerState then Step(w.(playerState := s), Notify(w, StateChanged(s)))
    else Step(w, [])
  }

  /** Setting the state it already has is silent and changes nothing. */
  lemma SetPlayerStateIdempotent(w: Wrapper, s: MusicPlayerState)
    ensures SetPlayerState(SetPlayerState(w, s).w, s) == Step(SetPlayerState(w, s).w, [])
  {
  }

  /** The engine `initExoPlayer(uri)` builds: prepared with `uri`, not yet
      asked to play, never sought, repeat off, not stopped. */
  function InitExoPlayer(uri: string): (e: Engine)
    ensures e.uri == uri && !e.playWhenReady && e.lastSeekMs.None?
    ensures e.repeatMode == RepeatOff && !e.stopped
  {
    Engine(uri, false, None, RepeatOff, false)
  }

  /** `play(uri)`: refused while in `Play`; otherwise a new engine for
      `uri` is built and asked to play, the state becomes `Play`, and at
      most one state notification is made. The timer and `isPlaying` are
      not touched. */
  function PlayUri(w: Wrapper, uri: string): (r: Result<Step, PlayerError>)
    ensures r.Failure? <==> w.playerState == Play
    ensures r.Failure? ==> r.error == AlreadyPlaying
    ensures r.Success? ==> r.value.w.playerState == Play
    ensures r.Success? ==> r.value.w.engine == Some(InitExoPlayer(uri).(playWhenReady := true))
    ensures r.Success? ==> r.value.w.isPlaying == w.isPlaying && r.value.w.timer == w.timer
    ensures r.Success? ==> r.value.w.hasListener == w.hasListener
    ensures r.Success? ==> r.value.events == Notify(w, StateChanged(Play))
  {
    if w.playerState == Play then Failure(AlreadyPlaying)
    else
      var w1 := w.(engine := Some(InitExoPlayer(uri).(playWhenReady := true)));
      Success(SetPlayerState(w1, Play))
  }

  /** `PausableTimer.pause()`, `resume()` and `stop()`, recorded as the last
      command given to the timer. */
  function PauseTimer(t: Timer): (t': Timer)
    ensures t'.status == Paused && t'.totalMs == t.totalMs && t'.intervalMs == t.intervalMs
  {
    t.(status := Paused)
  }

  function ResumeTimer(t: Timer): (t': Timer)
    ensures t'.status == Running && t'.totalMs == t.totalMs && t'.intervalMs == t.intervalMs
  {
    t.(status := Running)
  }

  function StopTimer(t: Timer): (t': Timer)
    ensures t'.status == Stopped && t'.totalMs == t.totalMs && t'.intervalMs == t.intervalMs
  {
    t.(status := Stopped)
  }

  /** One pass of the pause/resume branch of `play()`, chosen by
      `isPlaying`. */
  function TogglePass(w: Wrapper): Step
    requires w.timer.Some?
  {
    if w.isPlaying then SetPlayerState(w.(timer := Some(PauseTimer(w.timer.value))), Pause)
    else SetPlayerState(w.(timer := Some(ResumeTimer(w.timer.value))), Play)
  }

  /** The toggle `play()` is meant to be: one pass of the branch, then
      `playWhenReady := !isPlaying`. */
  function SingleToggle(w: Wrapper): Step
    requires w.engine.Some? && w.timer.Some?
  {
    var p := TogglePass(w);
    Step(p.w.(engine := Some(p.w.engine.value.(playWhenReady := !p.w.isPlaying))), p.events)
  }

  /** `play()` as written: the branch runs twice, then `playWhenReady` is
      set to `!isPlaying`. Its net effect is exactly one pass: it pauses
      when `isPlaying` and resumes otherwise, and the second pass adds no
      notification. `isPlaying` itself is not changed. */
  function PlayToggle(w: Wrapper): (r: Step)
    requires w.engine.Some? && w.timer.Some?
    ensures r == SingleToggle(w)
    ensures r.w.playerState == (if w.isPlaying then Pause else Play)
    ensures r.w.engine.Some? && r.w.engine.value == w.engine.value.(playWhenReady := !w.isPlaying)
    ensures r.w.timer.Some? && r.w.timer.value.status == (if w.isPlaying then Paused else Running)
    ensures r.w.isPlaying == w.isPlaying && r.w.hasListener == w.hasListener
    ensures |r.events| <= 1
    ensures w.hasListener ==> Announces(w.playerState, r)
  {
    var p1 := TogglePass(w);
    var p2 := TogglePass(p1.w);
    var w3 := p2.w.(engine := Some(p2.w.engine.value.(playWhenReady := !p2.w.isPlaying)));
    assert p2.events == [];
    Step(w3, p1.events + p2.events)
  }

  /** `stop()`: the engine is told not to play and stopped, the timer is
      stopped, and the state becomes `Standby`. */
  function StopPlayback(w: Wrapper): (r: Step)
    requires w.engine.Some? && w.timer.Some?
    ensures r.w.playerState == Standby
    ensures r.w.engine == Some(w.engine.value.(playWhenReady := false, stopped := true))
    ensures r.w.timer == Some(w.timer.value.(status := Stopped))
    ensures r.w.isPlaying == w.isPlaying && r.w.hasListener == w.hasListener
    ensures r.events == (if w.playerState != Standby then Notify(w, StateChanged(Standby)) else [])
  {
    var e := w.engine.value.(playWhenReady := false);
    var w1 := w.(engine := Some(e.(stopped := true)));
    var w2 := w1.(timer := Some(StopTimer(w1.timer.value)));
    SetPlayerState(w2, Standby)
  }

  /** `pause()`: the engine is told not to play, the timer is paused, and
      the state becomes `Pause`. */
  function PausePlayback(w: Wrapper): (r: Step)
    requires w.engine.Some? && w.timer.Some?
    ensures r.w.playerState == Pause
    ensures r.w.engine == Some(w.engine.value.(playWhenReady := false))
    ensures r.w.timer == Some(w.timer.value.(status := Paused))
    ensures r.w.isPlaying == w.isPlaying && r.w.hasListener == w.hasListener
    ensures r.events == (if w.playerState != Pause then Notify(w, StateChanged(Pause)) else [])
  {
    var w1 := w.(engine := Some(w.engine.value.(playWhenReady := false)));
    var w2 := w1.(timer := Some(PauseTimer(w1.timer.value)));
    SetPlayerState(w2, Pause)
  }

  /** `resume()`: the engine is told to play, the timer runs, and the state
      becomes `Play`. */
  function ResumePlayback(w: Wrapper): (r: Step)
    requires w.engine.Some? && w.timer.Some?
    ensures r.w.playerState == Play
    ensures r.w.engine == Some(w.engine.value.(playWhenReady := true))
    ensures r.w.timer == Some(w.timer.value.(status := Running))
    ensures r.w.isPlaying == w.isPlaying && r.w.hasListener == w.hasListener
    ensures r.events == (if w.playerState != Play then Notify(w, StateChanged(Play)) else [])
  {
    var w1 := w.(engine := Some(w.engine.value.(playWhenReady := true)));
    var w2 := w1.(timer := Some(ResumeTimer(w1.timer.value)));
    SetPlayerState(w2, Play)
  }

  /** A second `pause()` changes nothing and tells the listener nothing. */
  lemma PauseTwiceSilent(w: Wrapper)
    requires w.engine.Some? && w.timer.Some?
    ensures PausePlayback(PausePlayback(w).w) == Step(PausePlayback(w).w, [])
  {
  }

  /** A second `resume()` changes nothing and tells the listener nothing. */
  lemma ResumeTwiceSilent(w: Wrapper)
    requires w.engine.Some? && w.timer.Some?
    ensures ResumePlayback(ResumePlayback(w).w) == Step(ResumePlayback(w).w, [])
  {
  }

  /** A second `stop()` changes nothing and tells the listener nothing. */
  lemma StopTwiceSilent(w: Wrapper)
    requires w.engine.Some? && w.timer.Some?
    ensures StopPlayback(StopPlayback(w).w) == Step(StopPlayback(w).w, [])
  {
  }

  /** `setRepeat(b)`: repeat-one when `b`, repeat-off otherwise; nothing
      else changes and nothing is emitted. */
  function SetRepeat(w: Wrapper, isRepeat: bool): (r: Step)
    requires w.engine.Some?
    ensures r.w == w.(engine := Some(w.engine.value.(repeatMode := if isRepeat then RepeatOne else RepeatOff)))
    ensures r.events == []
  {
    var mode := if isRepeat then RepeatOne else RepeatOff;
    Step(w.(engine := Some(w.engine.value.(repeatMode := mode))), [])
  }

  /** `seekTo(sec)`: the engine is sent `sec` seconds as milliseconds,
      computed in `Int`: exactly `sec * 1000` while that fits, and
      otherwise the `Int` with the same low 32 bits; nothing else changes
      and nothing is emitted. */
  function SeekTo(w: Wrapper, sec: Int32): (r: Step)
    requires w.engine.Some?
    ensures r.w.engine.Some? && r.w.engine.value.lastSeekMs.Some?
    ensures MinInt32 <= r.w.engine.value.lastSeekMs.value <= MaxInt32
    ensures (sec * 1000 - r.w.engine.value.lastSeekMs.value) % TwoTo32 == 0
    ensures -2147483 <= sec <= 2147483 ==> r.w.engine.value.lastSeekMs.value == sec * 1000
    ensures -2147483 <= sec <= 2147483 ==> MillisToSeconds(r.w.engine.value.lastSeekMs.value) == sec
    ensures r.w == w.(engine := Some(w.engine.value.(lastSeekMs := r.w.engine.value.lastSeekMs)))
    ensures r.events == []
  {
    Step(w.(engine := Some(w.engine.value.(lastSeekMs := Some(SecondsToMillis(sec))))), [])
  }

  /** `getPlayerState()`: the logical state, read without changing
      anything or notifying anyone. */
  function GetPlayerState(w: Wrapper): (s: MusicPlayerState)
    ensures s == w.playerState
  {
    w.playerState
  }

  /** `setEventListener(l)`: a listener is set from now on; nothing else
      changes and nothing is emitted. */
  function SetEventListener(w: Wrapper): (r: Step)
    ensures r.w == w.(hasListener := true) && r.events == []
  {
    Step(w.(hasListener := true), [])
  }
}
