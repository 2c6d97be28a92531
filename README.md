# Landing-page interaction engine, in Dafny

This project models the client-side interaction and animation logic of a personal
landing page (`src/lib/logic.ts`) and proves properties of the model. It covers five parts:

- **The typed-text headline** (`startTypingCycle`, module `TypingCycle`). The cycle types a
  phrase one character at a time, deletes it again and turns to the next phrase. It does
  this until its running flag reads false. The model records the calls through which the
  cycle acts on its host, in order: each read of `isTypingRef()` with its answer, then
  `setDisplayed` and `setIndex`. The `getIndex()` reads are not recorded as calls, because they
  return the index the cycle last set. Phrases are sequences of UTF-16 code units, the
  units that `length` and `slice` count.
  The reference is a state machine, `Run`, indexed by the number of flag reads that come back
  true before the cancellation. The method `StartTypingCycle` keeps the source's `while`
  loop with its two inner `for` loops, and it is proved to make exactly the calls of `Run`.
- **The media state machine** (`toggleMute`, `handleVolumeChange`, `tryPlayVideo`,
  `handleSplashClick`, module `Media`). The component state and the audio and video elements
  are objects updated in place (`MediaControls`, `MediaElement`). Each handler is proved to
  move the state snapshot `State()` exactly as a pure transition function does. The
  properties are then proved about those functions: the mute round trip, the invariant
  "muted means volume 0 and music paused", and the guarded audio writes. Whether a
  `play()` succeeds is an input. A volume outside [0, 1] makes the element's setter throw.
  That error path is modelled in both handlers that write the setter: `handleVolumeChange` with
  the new value, and `toggleMute` with the kept volume when it unmutes. The splash click has two steps around its `await`, so a
  mute toggled between them can be modelled, and it is shown to start the music while muted.
  The handlers need only that the two elements are distinct. "Every volume in [0, 1]"
  (`Sound`) survives every handler, that race included. The full invariant (`Valid`) also
  holds that a muted page plays nothing. It survives every handler except the stale
  resume, and the next `toggleMute` restores it.
- **Pointer geometry** (`handleMouseMove`, `resetTilt`, `updateTooltipPosition`, module
  `Pointer`): the normalised pointer offset, the tilt with its clamp to ±12 degrees, and
  the tooltip anchor.
- **Tween targets** (`handleVolumeMouseEnter`/`Leave`, `scaleUp`/`Down`, and the icon pulse,
  module `Tweens`). Each handler writes fixed targets into a map keyed by the fields of the
  `Tweens` record in `src/lib/config.ts`. The 1500 ms collapse timeout and the 150 ms settle
  timeout are separate "fire" methods.
- **The snowfall** (`createSnowflakes` and `animateSnow`, module `Snow`): a fixed pool of 80
  particle records in an array, stepped in place every frame, with its render-loop
  lifecycle. The `Math.random()` draws, `Math.sin` and the viewport size are parameters.

Real numbers stand for JavaScript numbers throughout.

## Model

| member | source | states |
|---|---|---|
| `TypingCycle.StartTypingCycle` | src/lib/logic.ts:119-144 | The nested loops make exactly the calls of the reference machine `Run` from the first phrase, for every cancellation point. The phrase index they leave is in range and is the last index set. |
| `TypingCycle.TypeLoop` | src/lib/logic.ts:128-132 | The typing loop makes the calls `Run` makes from the start of typing up to the test after it. It reads the flag at most as often as the budget allows, and it keeps the index. |
| `TypingCycle.DeleteLoop` | src/lib/logic.ts:135-139 | The deleting loop makes the calls `Run` makes from the start of deletion up to the test after it, and it keeps the index. |
| `TypingCycle.TypeHalf` | src/lib/logic.ts:126-133 | From the loop's test, the phrase is typed and the test after typing is made. If a false read ends the cycle, every call of `Run` has been made. Otherwise the calls so far plus `Run` from the start of deletion are the whole run. |
| `TypingCycle.DeleteHalf` | src/lib/logic.ts:135-142 | The phrase is deleted and the test after deleting is made. The cycle then either ends with every call of `Run` made, or moves to index (index+1) mod n with `Run` from the loop's test still to come. |
| `TypingCycle.RunStopsOnCancel` | src/lib/logic.ts:126-140 | Every run ends with a false read of the flag. After the first false read, only false reads follow: no text is shown and no index is set. |
| `TypingCycle.RunFaithful` | src/lib/logic.ts:127-142 | Every text shown is a prefix of the current phrase. Every index set is the current index plus one, modulo the number of phrases. The current index always stays in range. |
| `TypingCycle.Growing` | src/lib/logic.ts:128-129 | The texts shown while typing: the prefix of each length 0..len, in increasing length. |
| `TypingCycle.Shrinking` | src/lib/logic.ts:135-136 | The texts shown while deleting: the prefix of each length len..0, in decreasing length. |
| `TypingCycle.TypingUninterrupted` | src/lib/logic.ts:128-132 | With enough true reads left, typing from prefix length i shows the remaining growing prefixes in order and uses one read per prefix. |
| `TypingCycle.DeletingUninterrupted` | src/lib/logic.ts:135-139 | With enough true reads left, deleting from prefix length j shows the remaining shrinking prefixes in order and uses one read per prefix. |
| `TypingCycle.FullPass` | src/lib/logic.ts:126-143 | With at least 2·len+5 true reads left, the cycle does three things before it starts over on phrase (index+1) mod n. It shows every prefix growing, then every prefix shrinking, then sets that index. |
| `TypingCycle.HiByeScenario` | src/lib/logic.ts:126-143 | For phrases "Hi" and "Bye" (as code units), the cycle shows "", "H", "Hi", "Hi", "H", "" and then sets index 1. |
| `TypingCycle.SurrogateHalfShown` | src/lib/logic.ts:128-136 | A character outside the Basic Multilingual Plane is two code units. It takes two typing steps and two deleting steps, and the step between them shows its high surrogate alone. |
| `TypingCycle.CancelTruncates` | src/lib/logic.ts:126-140 | Cancelling earlier yields a prefix of what a later cancellation would have done. The calls before the first false read are never changed, only cut short. |
| `TypingCycle.RunZeroIsCancelled` | src/lib/logic.ts:126-140 | With the flag already false, the cycle makes no call other than false reads. |
| `Tweens.TweenSet.constructor` | src/lib/config.ts:49-57 | Every tweened property of the page has a target. |
| `Tweens.HandleVolumeMouseEnter` | src/lib/logic.ts:50-55 | A pending collapse is cancelled. The panel opens: width 156, opacity 1, icon 1.05. No other target changes. |
| `Tweens.HandleVolumeMouseLeave` | src/lib/logic.ts:57-65 | A leave schedules the collapse and moves nothing yet. |
| `Tweens.FireCollapse` | src/lib/logic.ts:58-63 | A scheduled collapse closes the panel (width 48, opacity 0, icon 1) and clears the timer reference. With none pending, nothing changes. |
| `Tweens.ScaleUp` | src/lib/logic.ts:167-169 | The given button's tween target becomes 1.05 and no other target changes. |
| `Tweens.ScaleDown` | src/lib/logic.ts:171-173 | The given button's tween target becomes 1 and no other target changes. |
| `Tweens.PulseIcon` | src/lib/logic.ts:92 | The icon target becomes 1.15 and no other target changes. |
| `Tweens.SettleIcon` | src/lib/logic.ts:93 | 150 ms after a pulse, the icon target returns to 1. |
| `Tweens.ReturnBeforeCollapse` | src/lib/logic.ts:50-65 | Enter, leave, then re-enter before the timeout: when the timeout would have fired, the panel is still open exactly as the second enter left it, and nothing is pending. |
| `Tweens.VolumeHoverScenario` | src/lib/logic.ts:50-65 | After that sequence, a final leave and its timeout close the panel. No other target is touched. |
| `Pointer.Clamp` | src/lib/logic.ts:156-157 | `Math.max(lo, Math.min(hi, v))` lies in [lo, hi]. It is v inside the range and the nearer bound outside it. |
| `Pointer.Normalized` | src/lib/logic.ts:148-154 | The normalised offset rebuilds the pointer: centre plus offset times half the size, on each axis. |
| `Pointer.Tilt` | src/lib/logic.ts:155-157 | Both tilt angles lie in [-12, 12]. |
| `Pointer.TiltProportional` | src/lib/logic.ts:156-157 | Inside [-1, 1], tiltX = -12·ny and tiltY = 12·nx. Outside that range each angle saturates at ±12. |
| `Pointer.TiltDirections` | src/lib/logic.ts:156-157 | tiltX has the opposite sign of the vertical offset. tiltY has the sign of the horizontal offset. Both directions of each equivalence are stated. |
| `Pointer.TiltAtCorner` | src/lib/logic.ts:156-157 | A normalised offset of (1, 1) gives the tilt (-12, 12). |
| `Pointer.HandleMouseMove` | src/lib/logic.ts:146-160 | With a card, the two tilt targets become the tilt of the normalised pointer. Without a card, nothing changes. |
| `Pointer.ResetTilt` | src/lib/logic.ts:162-165 | Both tilt targets become 0 and nothing else changes. |
| `Pointer.CentreIsFlat` | src/lib/logic.ts:146-165 | The pointer at the card's centre gives exactly the flat targets that resetTilt writes. |
| `Pointer.TooltipPosition` | src/lib/logic.ts:109-117 | Over an element, the anchor is equidistant from its left and right edges and 15 above its top. Otherwise it is the origin. |
| `Pointer.TooltipExample` | src/lib/logic.ts:109-117 | The box {left 100, top 50, width 40, height 20} gives (120, 35). |
| `Media.MediaElement.Play` | src/lib/logic.ts:27 | The element plays if the browser allows it. A refusal changes nothing. |
| `Media.MediaElement.Pause` | src/lib/logic.ts:83 | The element stops and keeps its volume. |
| `Media.Played` | src/lib/logic.ts:27 | After a play attempt, the element plays if it already did or the attempt succeeded. Nothing else changes. |
| `Media.VideoTried` | src/lib/logic.ts:22-33 | Without a video, nothing changes. Otherwise the video is muted, looping and started, and videoWorking becomes exactly the play outcome. |
| `Media.MuteToggled` | src/lib/logic.ts:77-90 | The mute flag flips. Muting keeps the current volume aside, shows 0 and pauses the music. Unmuting restores the kept volume in the state and on the music, and restarts the music. If the music is present and the kept volume is outside [0, 1], the setter throws: the flag and the shown volume are already set, and the music is left untouched. |
| `Media.VolumeChanged` | src/lib/logic.ts:102-104 | When the handler completes: if the music is present and unmuted, its volume becomes the new value. Otherwise it keeps its volume. No other part of the state changes. |
| `Media.SplashResumed` | src/lib/logic.ts:41-47 | After the await, the music is started only if it is present and the mute flag read at the click was false. Nothing else changes. |
| `Media.SplashClicked` | src/lib/logic.ts:35-48 | With nothing else run during the await, the video is retried first. The music is then started only if it is present and unmuted. |
| `Media.ToggleTwiceRestoresVolume` | src/lib/logic.ts:77-89 | Muting and then unmuting, from unmuted volume v, gives back v as the current volume and as the music's volume. When music is present, v must be in [0, 1]. |
| `Media.ToggleTwiceRejectsBadVolume` | src/lib/logic.ts:77-89 | With music present and an unmuted volume v outside [0, 1], the unmute throws. The page ends unmuted and shows v, and the music stays paused at its old volume. |
| `Media.ToggleTwiceFromPointEight` | src/lib/logic.ts:77-89 | From volume 0.8, muting and unmuting gives back 0.8. |
| `Media.ToggleMuteKeepsConsistent` | src/lib/logic.ts:77-90 | From any state whose volumes are all in [0, 1], toggling gives the full invariant: volumes in range, and "muted means volume 0 and music paused". This holds even when the starting state is muted with music playing. |
| `Media.VolumeChangeKeepsConsistent` | src/lib/logic.ts:102-104 | A volume change that completes keeps every volume in [0, 1], and keeps "muted means volume 0 and music paused". |
| `Media.SplashClickKeepsConsistent` | src/lib/logic.ts:35-48 | A splash click with nothing else run during its await keeps both parts of the invariant. |
| `Media.SplashResumeKeepsConsistent` | src/lib/logic.ts:41-47 | The second half always keeps the volumes in range. It keeps "muted means silent" unless an unmuted click resumes into a muted state. |
| `Media.MuteDuringSplashClick` | src/lib/logic.ts:38-43 | Suppose a mute is toggled while an unmuted click waits for the video. The click then resumes with the stale flag and starts the music: the state is muted, the music plays, and the invariant is broken. |
| `Media.ToggleAfterSplashRaceRepairs` | src/lib/logic.ts:38-89 | One more toggle after that race unmutes the page. The full invariant holds again, and the page shows the volume from before the first press. |
| `Media.MediaControls.ToggleMute` | src/lib/logic.ts:67-94 | The setters and element writes move the state exactly as `MuteToggled`. The handler throws exactly in the `UnmuteRejected` case, and then the icon does not pulse; otherwise it pulses. From any state with volumes in range (`Sound`) the result is `Valid`, even after the splash-click race. |
| `Media.MediaControls.HandleVolumeChange` | src/lib/logic.ts:96-107 | The handler throws exactly when the music is present, unmuted and the value is outside [0, 1]: nothing changes and the icon does not pulse. Otherwise the state moves exactly as `VolumeChanged` and the icon pulses. `Sound` and `Valid` are each preserved. |
| `Media.MediaControls.TryPlayVideo` | src/lib/logic.ts:22-33 | The state moves exactly as `VideoTried`. `Sound` and `Valid` are each preserved. |
| `Media.MediaControls.HandleSplashClick` | src/lib/logic.ts:35-48 | The mute flag is read at the click, the video is retried, and the click resumes with that flag. The state moves exactly as `SplashClicked`. `Sound` and `Valid` are each preserved. |
| `Media.MediaControls.ResumeSplashClick` | src/lib/logic.ts:41-47 | The state moves exactly as `SplashResumed`. `Sound` is always preserved. `Valid` is preserved unless an unmuted click resumes into a muted state. |
| `Media.MediaControls.MuteDuringSplashClickScenario` | src/lib/logic.ts:35-94 | On the objects: click, retry the video, toggle the mute, resume. The page ends muted with the music playing. |
| `Media.MediaControls.ToggleAfterSplashRaceScenario` | src/lib/logic.ts:35-94 | On the objects: the same race, then one more toggle. The page ends unmuted and `Valid`, showing its original volume. |
| `Snow.SpawnX` | src/lib/logic.ts:188 | A spawn column lies in [-100, width + 100). |
| `Snow.SpawnY` | src/lib/logic.ts:195 | A spawn height lies in (-110, -10]. |
| `Snow.Spawn` | src/lib/logic.ts:187-202 | A new flake is in the spawn band with rotation 0. Its speed, drift, sway and rotation speed lie in their drawn ranges. |
| `Snow.StepFlake` | src/lib/logic.ts:209-219 | One frame: y grows by the speed and rotation by the rotation speed, and the motion parameters are kept. Below height + 10, the flake respawns in (-110, -10] with a freshly drawn column. Past a side margin, it reappears at the opposite one. x always ends in [-100, width + 100]. |
| `Snow.FallsEveryFrame` | src/lib/logic.ts:210 | A flake that does not respawn falls by at least half a pixel, and its parameters stay in range. |
| `Snow.Stepped` | src/lib/logic.ts:209-221 | One frame for the pool keeps its size and every parameter range, and puts every x in [-100, width + 100]. |
| `Snow.SnowField.constructor` | src/lib/logic.ts:181-203 | The pool holds exactly 80 freshly spawned flakes. The first frame runs at once, and the next one is requested. |
| `Snow.SnowField.AnimateSnow` | src/lib/logic.ts:207-225 | The array is stepped in place, flake by flake, exactly as `Stepped`. The frame counter grows by one. A next frame is requested exactly while the container is attached. |
| `Snow.SnowField.Tick` | src/lib/logic.ts:223 | A requested frame runs. Without one, nothing changes. |
| `Snow.SnowField.Stop` | src/lib/logic.ts:228-231 | The cleanup cancels the pending frame and detaches the container. |
| `Snow.SnowField.StopFreezes` | src/lib/logic.ts:226-231 | After the cleanup, later frames change no flake and no counter. |

## Left out

- The DOM: elements, class names, style and transform strings, `appendChild` and `remove`. Only the numeric particle state and whether the container is attached are modelled.
- Scheduling. `await tick()` and the `setTimeout` delays of the typing cycle change nothing here and are steps without effect. "Cancellation" in `TypingCycle` means the first flag read that returns false. If the flag is cleared during the 300 ms pause (src/lib/logic.ts:141), no read happens before the next `setIndex`, so that call still goes through and the cancellation is seen at the next read. The 1500 ms collapse and the 150 ms settle timeouts are the separate methods `FireCollapse` and `SettleIcon`. `requestAnimationFrame` is the `scheduled` flag together with `Tick`.
- The browser: the `Audio` and video objects beyond the four fields the code touches, the `play()` promises (their outcome is an input), `console` logging, and the `browser` flag. Server-side rendering is not modelled.
- `initBackgroundMusic` is browser object construction with error handling only. The `MediaControls` constructor takes its result, possibly absent, as an input.
- `handleButtonClick` is a single `window.open` call and has no state to model.
- `Math.random()` draws become parameters in [0, 1), `Math.sin` becomes a function parameter, and the viewport size becomes the `width` and `height` parameters.
- Floating point: JavaScript numbers are modelled as exact reals, with no IEEE rounding, infinities or NaN.
- Pointer.Normalized and Pointer.HandleMouseMove require a card of positive width and height. For a zero-size card the source divides by zero and writes NaN or infinite targets, which exact reals cannot express.
- TypingCycle.StartTypingCycle requires a non-empty phrase list and a start index in range. With an empty list the source fails at `text.length`.
- TypingCycle.StartTypingCycle models the running flag as a cancellation that, once it reads false, stays false. A flag that flips back to true between reads is not modelled. An uncancelled cycle never ends, so every run is taken with a finite number of true reads.
- The index is read through `getIndex()` and is assumed changed only by the cycle's own `setIndex`.
- Tweens.HandleVolumeMouseLeave models the timer reference as one pending flag. Two leaves without an enter in between schedule two timeouts in the source, but only the last is kept and can be cancelled. Here they are one.
- Media.VolumeChanged does not set `currentVolume`. The handler writes only the music's volume, and the calling component's slider binding updates `currentVolume`.
- Snow.StepFlake: the horizontal wrap sends a flake to the opposite margin, not modulo the band. A respawn height lies in (-110, -10].
- Media.MediaControls.HandleSplashClick is the click with no other handler run during its `await tryPlay()`. Other interleavings are built from its two halves, `TryPlayVideo` and `ResumeSplashClick`, as `MuteDuringSplashClickScenario` does. Which handlers the browser runs during the await is not modelled.
- Media.MediaControls.HandleVolumeChange stops at the throwing setter, and the exception propagates to its caller. What the caller does with it is not modelled.
- The interpolation of tweened values (the tween library) is not part of this model. Only the targets the handlers write are modelled.
