# ExoPlayerWrapper playback-state machine, in Dafny

`ExoPlayerWrapper` adapts a music-player interface (`play(uri)`, `play()`,
`pause()`, `resume()`, `stop()`, `setRepeat`, `seekTo`, `getPlayerState`,
`setEventListener`) to the ExoPlayer engine. Its one piece of logic is a
small state machine: a logical `MusicPlayerState` (`Standby`, `Play`,
`Pause`), an `isPlaying` flag that the engine's state callback overwrites,
an optional listener, and a gate (`setPlayerState`) that notifies the
listener only on a genuine change. Every control drives three things
together: the logical state, the engine's `playWhenReady`, and a pausable
progress timer.

This project models the wrapper as an immutable record (`PlayerModel.Wrapper`)
and every control and engine/timer callback as a pure transition returning
the new record and the listener calls made (`PlayerModel.Step`). Modules:

- `Results`: `Option` (Kotlin's `lateinit`/nullable fields) and `Result`
  (the exception `play(uri)` throws).
- `KotlinNumbers`: Kotlin `Int`/`Long` ranges, 32-bit wrap-around
  (`Int.times` overflow, `Long.toInt()`), and `Long.div`, which truncates
  toward zero where Dafny's `/` is Euclidean.
- `PlayerModel`: the data (state, engine-command view, abstract timer,
  events), the listener's view of an event sequence (`Announced`, `Tracks`),
  the reachable-state invariant `Coherent`, and the two unit conversions.
- `ExoPlayerWrapper`: the public operations and `setPlayerState`.
- `LocalPlayerEventListener`: the engine callbacks and the timer's tick
  and finish closures installed in `onTimelineChanged`.
- `Session`: any sequence of calls and callbacks, with the theorems that
  a listener set from the start is told each change of the logical state
  exactly once and ends at what `getPlayerState()` returns, and that
  coherence holds.

Behaviour the model follows from the code:

- `play()` runs its pause/resume branch twice, exactly as written; the model
  proves the result equals a single pass (`ExoPlayerWrapper.PlayToggle`).
- `onTimelineChanged` overwrites the timer field without stopping the
  previous timer, and the tick closure does not look at which timer fires
  it. So the wrapper does nothing to cancel a superseded timer; tick and
  finish callbacks are modelled independently of the current timer slot.
- The wrapper passes the engine's duration to the timer unchecked. Whether
  the timer's constructor rejects a negative duration is not visible; the
  model assumes it accepts any duration.
- The finish closure reads the engine's duration when the timer finishes,
  so `OnTimerFinish` takes that duration as input.
- `seekTo(sec)` multiplies in `Int`, so past 2147483 seconds the engine is
  sent a wrapped position: negative from 2147484 to 4294967 seconds, and
  wrapping round again after that (`PlayerModel.SecondsToMillisWraps`).
- `setEventListener` takes a non-null listener, so a listener once set
  stays set.
- Calling `pause`, `resume`, `stop`, `play()`, `setRepeat` or `seekTo`
  before the engine or timer is initialised fails at runtime on a
  `lateinit` field; the model states this as preconditions
  (`Session.Enabled`).
- In a `Session`, the exception from `play(uri)` while playing is taken to
  be caught by the caller: the wrapper is left as it was and nothing is
  emitted.

## Model

| member | source | states |
|---|---|---|
| KotlinNumbers.WrapInt32 | mediaplayerwithexoplayer2/src/main/java/weian/cheng/mediaplayerwithexoplayer/ExoPlayerWrapper.kt:113 | the result is an `Int` congruent to the input modulo 2^32, and equal to it when it already fits |
| KotlinNumbers.TruncDiv | mediaplayerwithexoplayer2/src/main/java/weian/cheng/mediaplayerwithexoplayer/ExoPlayerWrapper.kt:185 | the quotient rounds toward zero: the remainder has the dividend's sign and is smaller than the divisor |
| PlayerModel.Notify | mediaplayerwithexoplayer2/src/main/java/weian/cheng/mediaplayerwithexoplayer/ExoPlayerWrapper.kt:129 | a `listener?.` call emits exactly that one event when a listener is set and nothing otherwise |
| PlayerModel.SecondsToMillis | mediaplayerwithexoplayer2/src/main/java/weian/cheng/mediaplayerwithexoplayer/ExoPlayerWrapper.kt:112-114 | the milliseconds sent are `sec * 1000` when that fits in an `Int`, and always congruent to it modulo 2^32 |
| PlayerModel.MillisToSeconds | mediaplayerwithexoplayer2/src/main/java/weian/cheng/mediaplayerwithexoplayer/ExoPlayerWrapper.kt:185-193 | the seconds reported are the truncated quotient cut to 32 bits; in range, the input lies within the reported second (from below for positive, from above for negative) |
| PlayerModel.SecondsRoundTrip | mediaplayerwithexoplayer2/src/main/java/weian/cheng/mediaplayerwithexoplayer/ExoPlayerWrapper.kt:112-114 | seconds converted to milliseconds and back give the same seconds while the product fits in an `Int` |
| PlayerModel.SecondsToMillisWraps | mediaplayerwithexoplayer2/src/main/java/weian/cheng/mediaplayerwithexoplayer/ExoPlayerWrapper.kt:113 | 2147484 s and 4294967 s wrap to the negative positions -2147483296 ms and -296 ms; 4294968 s wraps round again to 704 ms |
| ExoPlayerWrapper.NewWrapper | mediaplayerwithexoplayer2/src/main/java/weian/cheng/mediaplayerwithexoplayer/ExoPlayerWrapper.kt:37-50 | a new wrapper is `Standby`, not playing, without listener, engine or timer, and coherent |
| ExoPlayerWrapper.SetPlayerState | mediaplayerwithexoplayer2/src/main/java/weian/cheng/mediaplayerwithexoplayer/ExoPlayerWrapper.kt:126-131 | the state ends up the requested one and nothing else changes; exactly one `StateChanged(s)` is emitted iff `s` differs from the current state and a listener is set |
| ExoPlayerWrapper.SetPlayerStateIdempotent | mediaplayerwithexoplayer2/src/main/java/weian/cheng/mediaplayerwithexoplayer/ExoPlayerWrapper.kt:126-131 | setting a state a second time changes nothing and emits nothing |
| ExoPlayerWrapper.InitExoPlayer | mediaplayerwithexoplayer2/src/main/java/weian/cheng/mediaplayerwithexoplayer/ExoPlayerWrapper.kt:133-144 | a new engine is prepared with the uri, not asked to play, never sought, repeat off, not stopped |
| ExoPlayerWrapper.PlayUri | mediaplayerwithexoplayer2/src/main/java/weian/cheng/mediaplayerwithexoplayer/ExoPlayerWrapper.kt:52-61 | fails with `AlreadyPlaying` iff the state is `Play`; otherwise a fresh engine for the uri is asked to play, the state is `Play`, timer and `isPlaying` are untouched, and at most the one `StateChanged(Play)` is emitted |
| ExoPlayerWrapper.PauseTimer | mediaplayerwithexoplayer2/src/main/java/weian/cheng/mediaplayerwithexoplayer/ExoPlayerWrapper.kt:95 | the timer is paused with its duration and interval kept |
| ExoPlayerWrapper.ResumeTimer | mediaplayerwithexoplayer2/src/main/java/weian/cheng/mediaplayerwithexoplayer/ExoPlayerWrapper.kt:101 | the timer runs with its duration and interval kept |
| ExoPlayerWrapper.StopTimer | mediaplayerwithexoplayer2/src/main/java/weian/cheng/mediaplayerwithexoplayer/ExoPlayerWrapper.kt:89 | the timer is stopped with its duration and interval kept |
| ExoPlayerWrapper.PlayToggle | mediaplayerwithexoplayer2/src/main/java/weian/cheng/mediaplayerwithexoplayer/ExoPlayerWrapper.kt:63-84 | the two-pass toggle equals a single pass: `Pause` with the timer paused if `isPlaying`, else `Play` with it running; `playWhenReady` becomes `!isPlaying`; `isPlaying` is unchanged; at most one notification, of the new state |
| ExoPlayerWrapper.StopPlayback | mediaplayerwithexoplayer2/src/main/java/weian/cheng/mediaplayerwithexoplayer/ExoPlayerWrapper.kt:86-91 | ends in `Standby` with `playWhenReady` false, the engine stopped and the timer stopped; notifies `Standby` only if it was not already |
| ExoPlayerWrapper.PausePlayback | mediaplayerwithexoplayer2/src/main/java/weian/cheng/mediaplayerwithexoplayer/ExoPlayerWrapper.kt:93-97 | ends in `Pause` with `playWhenReady` false and the timer paused; notifies `Pause` only if it was not already |
| ExoPlayerWrapper.ResumePlayback | mediaplayerwithexoplayer2/src/main/java/weian/cheng/mediaplayerwithexoplayer/ExoPlayerWrapper.kt:99-103 | ends in `Play` with `playWhenReady` true and the timer running; notifies `Play` only if it was not already |
| ExoPlayerWrapper.PauseTwiceSilent | mediaplayerwithexoplayer2/src/main/java/weian/cheng/mediaplayerwithexoplayer/ExoPlayerWrapper.kt:93-97 | a second `pause()` changes nothing and emits nothing |
| ExoPlayerWrapper.ResumeTwiceSilent | mediaplayerwithexoplayer2/src/main/java/weian/cheng/mediaplayerwithexoplayer/ExoPlayerWrapper.kt:99-103 | a second `resume()` changes nothing and emits nothing |
| ExoPlayerWrapper.StopTwiceSilent | mediaplayerwithexoplayer2/src/main/java/weian/cheng/mediaplayerwithexoplayer/ExoPlayerWrapper.kt:86-91 | a second `stop()` changes nothing and emits nothing |
| ExoPlayerWrapper.SetRepeat | mediaplayerwithexoplayer2/src/main/java/weian/cheng/mediaplayerwithexoplayer/ExoPlayerWrapper.kt:105-110 | only the engine's repeat mode changes: repeat-one when asked, repeat-off otherwise; nothing emitted |
| ExoPlayerWrapper.SeekTo | mediaplayerwithexoplayer2/src/main/java/weian/cheng/mediaplayerwithexoplayer/ExoPlayerWrapper.kt:112-114 | only the engine's seek position changes, to an `Int` congruent to `sec * 1000` modulo 2^32 (the wrapped product), which is exactly `sec * 1000` when that fits and then reads back as `sec` seconds; nothing emitted |
| ExoPlayerWrapper.SetEventListener | mediaplayerwithexoplayer2/src/main/java/weian/cheng/mediaplayerwithexoplayer/ExoPlayerWrapper.kt:122-124 | a listener is set and nothing else changes; nothing emitted |
| LocalPlayerEventListener.OnPlayerStateChanged | mediaplayerwithexoplayer2/src/main/java/weian/cheng/mediaplayerwithexoplayer/ExoPlayerWrapper.kt:166-171 | `isPlaying` becomes the engine's `playWhenReady`; `STATE_ENDED` moves to `Standby` (notified once, if it changes), any other engine state leaves the logical state alone and emits nothing |
| LocalPlayerEventListener.OnLoadingChanged | mediaplayerwithexoplayer2/src/main/java/weian/cheng/mediaplayerwithexoplayer/ExoPlayerWrapper.kt:173-175 | the buffered percentage is forwarded unchanged to a set listener; the wrapper is unchanged |
| LocalPlayerEventListener.OnTimelineChanged | mediaplayerwithexoplayer2/src/main/java/weian/cheng/mediaplayerwithexoplayer/ExoPlayerWrapper.kt:183-195 | `DurationChanged(duration div 1000)` only for a positive duration; the timer slot always holds a new, running timer for that duration with a one-second interval; nothing else changes |
| LocalPlayerEventListener.OnTimerTick | mediaplayerwithexoplayer2/src/main/java/weian/cheng/mediaplayerwithexoplayer/ExoPlayerWrapper.kt:189-191 | the remaining time is reported in whole seconds rounded toward zero; the wrapper is unchanged |
| LocalPlayerEventListener.OnTimerFinish | mediaplayerwithexoplayer2/src/main/java/weian/cheng/mediaplayerwithexoplayer/ExoPlayerWrapper.kt:192-194 | the engine's duration read at finish time, not the remaining time, is reported in whole seconds; the wrapper is unchanged |
| LocalPlayerEventListener.FinishReportsTotalDuration | mediaplayerwithexoplayer2/src/main/java/weian/cheng/mediaplayerwithexoplayer/ExoPlayerWrapper.kt:183-195 | for media of at least a second, the finish report equals the announced duration in seconds and is not zero |
| Session.Apply | mediaplayerwithexoplayer2/src/main/java/weian/cheng/mediaplayerwithexoplayer/ExoPlayerWrapper.kt:52-131 | only `play(uri)` in `Play` fails; every step keeps a listener in step with the state, emits nothing without a listener, sets the listener only through `setEventListener`, and preserves coherence |
| Session.RunKeepsListenerInStep | mediaplayerwithexoplayer2/src/main/java/weian/cheng/mediaplayerwithexoplayer/ExoPlayerWrapper.kt:126-131 | over any session with a listener from the start, the state announcements taken together never repeat the state current when made, and end at what `getPlayerState()` returns; this is what the listener sees when it is the session's only one |
| Session.RunAnnouncesEveryChange | mediaplayerwithexoplayer2/src/main/java/weian/cheng/mediaplayerwithexoplayer/ExoPlayerWrapper.kt:126-131 | with a listener from the start, there are exactly as many state announcements as steps that change the state, so no change goes unannounced |
| Session.NewListenerIsNotTold | mediaplayerwithexoplayer2/src/main/java/weian/cheng/mediaplayerwithexoplayer/ExoPlayerWrapper.kt:122-124 | installing a listener while playing emits nothing: a new listener is not told the current state |
| ExoPlayerWrapper.GetPlayerState | mediaplayerwithexoplayer2/src/main/java/weian/cheng/mediaplayerwithexoplayer/ExoPlayerWrapper.kt:116 | returns the logical state, with nothing changed and nothing emitted |
| Session.RunPreservesCoherent | mediaplayerwithexoplayer2/src/main/java/weian/cheng/mediaplayerwithexoplayer/ExoPlayerWrapper.kt:52-103 | any session from a coherent wrapper ends coherent: no timer without engine, the state is `Standby` while there is no engine, `Play` only with `playWhenReady`, `Pause` only without |
| Session.NewWrapperStaysCoherent | mediaplayerwithexoplayer2/src/main/java/weian/cheng/mediaplayerwithexoplayer/ExoPlayerWrapper.kt:37-50 | every session of a newly built wrapper ends coherent |
| Session.RunSilentWithoutListener | mediaplayerwithexoplayer2/src/main/java/weian/cheng/mediaplayerwithexoplayer/ExoPlayerWrapper.kt:46 | a session with no listener and no `setEventListener` emits nothing and still has no listener |
| Session.ExampleLoad | mediaplayerwithexoplayer2/src/main/java/weian/cheng/mediaplayerwithexoplayer/ExoPlayerWrapper.kt:52-61 | setting a listener, `play(uri)` and a 185500 ms timeline emit `StateChanged(Play)`, `DurationChanged(185)` and leave a playing wrapper with a running timer |
| Session.ExampleControls | mediaplayerwithexoplayer2/src/main/java/weian/cheng/mediaplayerwithexoplayer/ExoPlayerWrapper.kt:86-103 | from there `pause`, `pause`, `resume`, `stop` emit `Pause`, `Play`, `Standby` and end in `Standby` |
| Session.PlayUriWhilePlayingChangesNothing | mediaplayerwithexoplayer2/src/main/java/weian/cheng/mediaplayerwithexoplayer/ExoPlayerWrapper.kt:52-56 | `play(uri)` while playing fails, leaving the wrapper as it was and emitting nothing |

## Left out

- `initExoPlayer`: building the engine, bandwidth meter, data source, extractor and track selector, and parsing the uri, are engine-library calls; the model records only that a fresh engine for the uri exists (`InitExoPlayer`). The previous engine is not released by the code, and the model does not track it.
- `PausableTimer`: the class is not part of this model. The timer is reduced to its duration, interval and the last command the wrapper gave it (`Timer.status`), as the engine is reduced to what the wrapper told it. How the timer reacts to a command (a repeated `pause()` or `resume()`, a `resume()` after `stop()`), tick scheduling, the countdown of remaining time and wall-clock waiting are not modelled, so tick and finish callbacks take their values as inputs and are not tied to the recorded status.
- ExoPlayerWrapper.PlayToggle: the single-pass equality is proved for the logical state, `playWhenReady`, `isPlaying` and the notifications. For the timer it shows only that the last command given is the same; the two-pass code calls `timer.pause()` or `timer.resume()` twice, and whether `PausableTimer` tolerates the repeated call is not modelled.
- Cancelling a superseded timer: the wrapper does not stop the previous timer when it replaces it, and the timer class is not part of this model, so the model has no cancellation to state.
- Rejecting a negative duration: the wrapper does not check the duration it passes to the timer, and the model assumes the timer accepts any duration.
- `lateinit` failures are preconditions, not modelled exceptions. `stop()`, `pause()` and `resume()` set the engine's `playWhenReady` before they touch the timer, so one called after `play(uri)` but before the first timeline callback changes `playWhenReady` and then throws; the model does not cover that partial effect, and `Coherent` is promised only for sessions whose calls find their fields initialised.
- Session.RunKeepsListenerInStep: speaks of all state announcements of a session together. A listener installed mid-session by `setEventListener` sees only the later ones and is not told the state it starts in (`Session.NewListenerIsNotTold`), so for it the lemma does not say that it ends up believing the current state.
- `writeToFile` and the no-op callbacks (`onPlaybackParametersChanged`, `onTracksChanged`, `onPlayerError`, `onPositionDiscontinuity`, `onRepeatModeChanged`) do nothing beyond returning `true`, so they have no transition.
- `Log`, the Android `Context`, and the thread on which the engine delivers callbacks: I/O and concurrency. Callbacks are ordinary sequential transitions.
- The engine's own reactions (its playback state, its buffered percentage, its duration) are inputs to the callbacks, not a model of the engine.
- Which listener is set: only whether one is set is modelled, since every call goes to the one current listener.
