/** A session: any sequence of public calls and engine or timer callbacks,
    applied one after another to the wrapper. A call that throws (`play(uri)`
    while playing) is taken to be caught by its caller, so it leaves the
    wrapper as it was and emits nothing. */
module Session {
  import opened Results
  import opened KotlinNumbers
  import opened PlayerModel
  import W = ExoPlayerWrapper
  import L = LocalPlayerEventListener

  datatype Op =
    | PlayUri(uri: string)
    | PlayToggle
    | Stop
    | Pause
    | Resume
    | SetRepeat(isRepeat: bool)
    | SeekTo(sec: Int32)
    | SetEventListener
    | EngineStateChanged(playWhenReady: bool, playbackState: int)
    | EngineLoadingChanged(bufferedPercentage: int)
    | EngineTimelineChanged(durationMs: Int64)
    | TimerTick(millisUntilFinished: Int64)
    | TimerFinish(engineDurationMs: Int64)

  /** The `lateinit` fields `op` reads are initialised: the controls that
      drive the timer need engine and timer, the engine commands need the
      engine, and engine and timer callbacks come from an existing engine
      and timer. */
  predicate Enabled(w: Wrapper, op: Op)
  {
    match op
    case PlayUri(_) => true
    case PlayToggle | Stop | Pause | Resume => w.engine.Some? && w.timer.Some?
    case SetRepeat(_) | SeekTo(_) => w.engine.Some?
    case SetEventListener => true
    case EngineStateChanged(_, _) | EngineLoadingChanged(_) | EngineTimelineChanged(_) => w.engine.Some?
    case TimerTick(_) | TimerFinish(_) => w.engine.Some? && w.timer.Some?
  }

  /** One call or callback. Only `play(uri)` can fail, and only in `Play`.
      Every successful step keeps a listener in step with the logical state,
      emits nothing while no listener is set, and keeps the wrapper
      coherent. */
  function Apply(w: Wrapper, op: Op): (r: Result<Step, PlayerError>)
    requires Enabled(w, op)
    ensures r.Failure? <==> op.PlayUri? && w.playerState == Play
    ensures r.Success? && w.hasListener ==> Announces(w.playerState, r.value)
    ensures r.Success? && !w.hasListener ==> r.value.events == []
    ensures r.Success? ==> r.value.w.hasListener == (w.hasListener || op.SetEventListener?)
    ensures r.Success? && Coherent(w) ==> Coherent(r.value.w)
  {
    match op
    case PlayUri(uri) => W.PlayUri(w, uri)
    case PlayToggle => Success(W.PlayToggle(w))
    case Stop => Success(W.StopPlayback(w))
    case Pause => Success(W.PausePlayback(w))
    case Resume => Success(W.ResumePlayback(w))
    case SetRepeat(b) => Success(W.SetRepeat(w, b))
    case SeekTo(sec) => Success(W.SeekTo(w, sec))
    case SetEventListener => Success(W.SetEventListener(w))
    case EngineStateChanged(pwr, st) => Success(L.OnPlayerStateChanged(w, pwr, st))
    case EngineLoadingChanged(p) => Success(L.OnLoadingChanged(w, p))
    case EngineTimelineChanged(d) => Success(L.OnTimelineChanged(w, d))
    case TimerTick(ms) => Success(L.OnTimerTick(w, ms))
    case TimerFinish(d) => Success(L.OnTimerFinish(w, d))
  }

  /** The step a call makes, with a thrown exception caught by the caller. */
  function Outcome(w: Wrapper, op: Op): Step
    requires Enabled(w, op)
  {
    match Apply(w, op)
    case Success(s) => s
    case Failure(_) => Step(w, [])
  }

  /** Every call of `ops` finds the fields it needs initialised. */
  predicate RunEnabled(w: Wrapper, ops: seq<Op>)
    decreases |ops|
  {
    ops == [] || (Enabled(w, ops[0]) && RunEnabled(Outcome(w, ops[0]).w, ops[1..]))
  }

  /** The wrapper after `ops`, and every listener call made on the way. */
  function Run(w: Wrapper, ops: seq<Op>): Step
    requires RunEnabled(w, ops)
    decreases |ops|
  {
    if ops == [] then Step(w, [])
    else
      var s := Outcome(w, ops[0]);
      var rest := Run(s.w, ops[1..]);
      Step(rest.w, s.events + rest.events)
  }

  /** Across any session with a listener set from the start, the state
      announcements, taken together, never repeat the state current when
      they are made, and the last one (or the starting state, if there is
      none) is what `getPlayerState()` returns at the end. A listener that
      is the only one of the session therefore ends up believing the
      current state; one installed later by `setEventListener` sees only
      the announcements after it and is not told the state it starts in
      (`NewListenerIsNotTold`). */
  lemma {:induction false} RunKeepsListenerInStep(w: Wrapper, ops: seq<Op>)
    requires w.hasListener && RunEnabled(w, ops)
    ensures Tracks(w.playerState, Announced(Run(w, ops).events), W.GetPlayerState(Run(w, ops).w))
    decreases |ops|
  {
    if ops != [] {
      var s := Outcome(w, ops[0]);
      var rest := Run(s.w, ops[1..]);
      AnnouncesTracks(w.playerState, s);
      RunKeepsListenerInStep(s.w, ops[1..]);
      AnnouncedAppend(s.events, rest.events);
      TracksAppend(w.playerState, Announced(s.events), s.w.playerState,
                   Announced(rest.events), rest.w.playerState);
    }
  }

  /** The number of calls and callbacks of `ops` that change the logical
      state. */
  function StateChanges(w: Wrapper, ops: seq<Op>): nat
    requires RunEnabled(w, ops)
    decreases |ops|
  {
    if ops == [] then 0
    else
      var s := Outcome(w, ops[0]);
      (if s.w.playerState != w.playerState then 1 else 0) + StateChanges(s.w, ops[1..])
  }

  /** With a listener set from the start, every change of the logical state
      is announced: there are exactly as many announcements as steps that
      change the state. */
  lemma {:induction false} RunAnnouncesEveryChange(w: Wrapper, ops: seq<Op>)
    requires w.hasListener && RunEnabled(w, ops)
    ensures |Announced(Run(w, ops).events)| == StateChanges(w, ops)
    decreases |ops|
  {
    if ops != [] {
      var s := Outcome(w, ops[0]);
      var rest := Run(s.w, ops[1..]);
      RunAnnouncesEveryChange(s.w, ops[1..]);
      AnnouncedAppend(s.events, rest.events);
    }
  }

  /** `setEventListener` does not tell the new listener the current state:
      installing one while playing emits nothing. */
  lemma NewListenerIsNotTold()
    ensures RunEnabled(Loaded, [SetEventListener])
    ensures Run(Loaded, [SetEventListener]).events == []
    ensures W.GetPlayerState(Run(Loaded, [SetEventListener]).w) == Play
  {
  }

  /** Every session from a coherent wrapper ends in a coherent wrapper. */
  lemma {:induction false} RunPreservesCoherent(w: Wrapper, ops: seq<Op>)
    requires Coherent(w) && RunEnabled(w, ops)
    ensures Coherent(Run(w, ops).w)
    decreases |ops|
  {
    if ops != [] {
      RunPreservesCoherent(Outcome(w, ops[0]).w, ops[1..]);
    }
  }

  /** Every session of a newly built wrapper keeps it coherent. */
  lemma NewWrapperStaysCoherent(ops: seq<Op>)
    requires RunEnabled(W.NewWrapper(), ops)
    ensures Coherent(Run(W.NewWrapper(), ops).w)
  {
    RunPreservesCoherent(W.NewWrapper(), ops);
  }

  /** Until a listener is set, nothing is emitted. */
  lemma {:induction false} RunSilentWithoutListener(w: Wrapper, ops: seq<Op>)
    requires !w.hasListener && RunEnabled(w, ops)
    requires forall i :: 0 <= i < |ops| ==> !ops[i].SetEventListener?
    ensures Run(w, ops).events == []
    ensures !Run(w, ops).w.hasListener
    decreases |ops|
  {
    if ops != [] {
      assert !ops[0].SetEventListener?;
      RunSilentWithoutListener(Outcome(w, ops[0]).w, ops[1..]);
    }
  }

  /** The wrapper once `song.mp3` is loaded, playing, and its timeline known. */
  const Loaded: Wrapper :=
    Wrapper(Play, false, true, Some(Engine("song.mp3", true, None, RepeatOff, false)),
            Some(Timer(185_500, TickIntervalMs, Running)))

  /** Setting a listener, loading a medium and learning its duration
      announces `Play` and the duration in whole seconds. */
  lemma ExampleLoad()
    ensures var ops := [SetEventListener, PlayUri("song.mp3"), EngineTimelineChanged(185_500)];
            RunEnabled(W.NewWrapper(), ops) &&
            Run(W.NewWrapper(), ops) == Step(Loaded, [StateChanged(Play), DurationChanged(185)])
  {
  }

  /** From there, pausing twice, resuming and stopping: the repeated pause
      is silent and every other control announces its new state once. */
  lemma ExampleControls()
    ensures var ops := [Op.Pause, Op.Pause, Resume, Stop];
            RunEnabled(Loaded, ops) &&
            Run(Loaded, ops).events
              == [StateChanged(MusicPlayerState.Pause), StateChanged(Play), StateChanged(Standby)] &&
            Run(Loaded, ops).w.playerState == Standby
  {
  }

  /** `play(uri)` while playing is refused: the wrapper is unchanged and
      nothing is emitted. */
  lemma PlayUriWhilePlayingChangesNothing(w: Wrapper, uri: string)
    requires w.playerState == Play
    ensures Apply(w, PlayUri(uri)).Failure?
    ensures Outcome(w, PlayUri(uri)) == Step(w, [])
  {
  }
}
