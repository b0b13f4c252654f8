# Trolley smile page: progress, sound and position model

A Dafny model of the logic in `script.js` of a browser toy. A webcam watches the
viewer, and a "trolley" element moves across the page while the viewer does not
smile. The model covers the three pieces that hold the page's own logic:

- **Progress controller** (module `Progress`, class `Session.Session`). `clamp`,
  `setTrolleyProgress` and the decision taken in each 100 ms detection tick.
  Progress is held as an integer count of eighths of a percent (0..800). The
  steps 0.125 % (a face that does not smile) and 0.5 % (no face) are therefore
  exact. A happy score of at least 0.5 holds progress and stops the sound. A
  missing `happy` key counts as 0. Only the first detection is read.
- **Sound manager** (module `Sound`). The closure behind `soundManager` is an
  on/off state machine. It has a `playing` flag and two handle slots: the
  element now playing (`currentAudio`) and its Web Audio source node
  (`currentSource`). It also records whether the audio context exists. `start`
  and `stop` are idempotent. `playRandom` does nothing unless the manager is
  playing. The class `Sound.SoundManager` is proved against the functions
  `StartSpec`, `StopSpec`, `PlayRandomSpec` and `Cleanup` on a `SoundState`
  value. The invariant `Inv` holds after the constructor and after every
  `Start`, `Stop` and `PlayRandom`: an element is held exactly while playing,
  and a source node only wraps the held element. `CleanupCurrent` and
  `EnsureCtx` are internal steps of those operations (in the script they are
  private to the closure) and are not promised to keep `Inv` on their own.
- **Position mapper** (module `Position`). `updateTrolleyPosition` is a pure map
  from progress, viewport size, element size, direction and start offset to the
  pixel offset. Directions are in hundredths, so `DIRECTION_Y = 0.65` is 65.
  `Math.round` is modelled exactly on rationals as "nearest integer, halves
  upward" (`RoundDiv`).

DOM writes are return values here. `Session.Session.Tick` returns the background colour
it sets and the offset written to the trolley. The browser's random draws and
whether the audio node graph can be built are inputs (`Sound.AudioEnv`).

Progress saturates at 100 %. The position is not clamped to the viewport:
`Position.OffsetWithinTrack` proves the on-screen bound only when the trolley
fits between its start and the viewport edge, and `Position.OffsetWithinStart`
bounds the coordinate by [0, start] for directions in [-1, 0].

## Model

| member | source | states |
|---|---|---|
| Progress.Clamp | script.js:127-129 | the result lies in [min, max] when min ≤ max; a value already in range is returned unchanged; a value above max gives max; below min, or with min > max, gives min |
| Progress.Read | script.js:254-257 | a tick sees no face exactly when there is no first detection or it has no expression map; otherwise the happy score is the `happy` entry, or 0 when that key is missing |
| Progress.OnlyFirstDetectionCounts | script.js:254 | detections after the first never change what a tick reads |
| Progress.Step | script.js:259-278 | the step a tick attempts is zero exactly when the viewer smiles (happy ≥ 0.5) and never negative |
| Progress.NextProgress | script.js:256-279 | from progress in [0, 100] a tick yields progress in [p, 100]; a smile holds p; otherwise progress becomes p + step or saturates at 100, so it becomes min(100, p + step) |
| Progress.Run | script.js:243-280 | progress stays within [0, 100] through any run of ticks |
| Progress.RunMonotone | script.js:243-280 | progress after any run of ticks is at least the starting progress |
| Progress.RunPrefixMonotone | script.js:243-280 | progress at any earlier moment of a run is at most the progress at its end |
| Progress.RunWhileSmiling | script.js:264-273 | a viewer who smiles at every tick holds progress exactly where it started |
| Progress.RunWithoutFace | script.js:274-279 | n ticks without a face give clamp(0, p + n·0.5 %, 100) |
| Progress.RunWhileFrowning | script.js:259-263 | n ticks of a face with happy < 0.5 give clamp(0, p + n·0.125 %, 100) |
| Progress.NoFaceScenario | script.js:274-279 | from 0, 170 ticks without a face reach exactly 85 % and 200 reach 100 % |
| Position.RoundDiv | script.js:164-167 | Math.round of n/d is the integer r with r − ½ ≤ n/d < r + ½ |
| Position.UpdateTrolleyPosition | script.js:150-171 | no offset exactly when the trolley element is missing; otherwise the offset for its size |
| Position.OffsetAtStart | script.js:158-167 | at progress 0 each coordinate is exactly its start offset |
| Position.OffsetAtFull | script.js:158-167 | at progress 100 each coordinate is start + Math.round(maxTravel · direction) |
| Position.OffsetMonotone | script.js:158-167 | with a positive direction and non-negative max travel the coordinate is non-decreasing in progress |
| Position.OffsetWithinTrack | script.js:158-167 | with direction in (0, 1] and a trolley that fits, the coordinate stays between start and viewport size minus element size for all progress in [0, 100] |
| Position.OffsetWithinStart | script.js:158-167 | with direction in [-1, 0] (left, up or no movement) and a non-negative start, max travel is the start itself and the coordinate stays within [0, start] for all progress in [0, 100] |
| Position.DefaultStaysOnScreen | script.js:122-125 | with the script's own direction and start settings, a trolley that fits stays on screen at every progress in [0, 100] |
| Sound.PickIndex | script.js:50 | for a random value r in [0, 1) the picked index is floor(r · 5), a valid index into the file list |
| Sound.Cleanup | script.js:29-46 | both handle slots are emptied and the playing flag and context are untouched |
| Sound.PlayRandomSpec | script.js:48-93 | nothing changes unless playing; otherwise the slot holds a new element for the picked clip, a source node exists exactly when the node graph could be built, the context exists, and the invariant is kept |
| Sound.StartSpec | script.js:96-105 | afterwards the manager is playing; starting while playing changes nothing; from stopped the picked clip is loaded; the invariant is kept |
| Sound.StopSpec | script.js:106-114 | afterwards the manager is not playing; stopping while stopped changes nothing; under the invariant both handle slots are empty |
| Sound.StartIdempotent | script.js:96-98 | starting twice has the effect of starting once |
| Sound.StopIdempotent | script.js:106-107 | stopping twice has the effect of stopping once |
| Sound.PlayAfterStopIsSilent | script.js:87-90 | a clip re-armed by a timer after stop finds the manager stopped and loads nothing |
| Sound.SoundManager.constructor | script.js:19-22 | a new manager is stopped, holds no handles and has no audio context |
| Sound.SoundManager.EnsureCtx | script.js:24-27 | the audio context exists afterwards and nothing else changes |
| Sound.SoundManager.CleanupCurrent | script.js:29-46 | the new state is Cleanup of the old one |
| Sound.SoundManager.PlayRandom | script.js:48-93 | the new state is PlayRandomSpec of the old one |
| Sound.SoundManager.Start | script.js:96-105 | the new state is StartSpec of the old one |
| Sound.SoundManager.Stop | script.js:106-114 | the new state is StopSpec of the old one |
| Sound.SoundManager.IsPlaying | script.js:115-117 | returns the playing flag |
| Session.Background | script.js:259-276 | the background is white exactly when the viewer smiles, red otherwise |
| Session.SoundAfterTick | script.js:138-145 | a smile stops the sound; a tick that raises progress starts it; a tick that leaves progress unchanged without a smile leaves it untouched |
| Session.PinnedNeverRestarts | script.js:134 | once progress is pinned at 100, a tick never starts the sound again: it either stops it (smile) or leaves it as it was |
| Session.MovingStartsSound | script.js:131-145 | below 100 a tick without a smile raises progress and the sound plays afterwards |
| Session.TickKeepsSoundInvariant | script.js:264-273 | every tick keeps the sound invariant, and a smile leaves the manager stopped with both slots empty |
| Session.Session.constructor | script.js:4-5 | a session starts at progress 0 with a stopped sound manager |
| Session.Session.SetTrolleyProgress | script.js:131-148 | progress becomes clamp(0, percent, 100) and the previous progress equals it; the sound is started exactly when the clamped value exceeds the previous progress; the offset is recomputed for the new progress |
| Session.Session.Tick | script.js:254-279 | progress becomes NextProgress of the reading, the sound follows SoundAfterTick, the background follows the smile, the offset is rewritten unless the viewer smiles, and the session invariant is kept |
| Session.Session.RunTicks | script.js:243-280 | after a run of ticks progress is Run of the readings and not lower than before, and each tick's background follows its reading |

## Left out

- Face-api model loading, camera acquisition and canvas drawing (script.js:175-252) are library calls and I/O. The detector's answer is an input to `Session.Session.Tick`.
- DOM writes (`style.left`, `style.top`, `backgroundColor`) are returned as values rather than performed. The resize listener (script.js:173) recomputes the same `Position.UpdateTrolleyPosition`.
- The `Audio` and Web Audio objects are not modelled. Only the handles' identities are kept: the clip path and the element a source node wraps. This covers `play()`, `resume()` and `suspend()` and their promises, the panner and gain nodes, playback rate, volume and pan.
- The running/suspended state of the audio context is left out. It changes asynchronously through the browser's promises. The model records only whether the context was created.
- The `onended` handler's `setTimeout` re-arm is timer concurrency and is left out. The call it schedules is `Sound.SoundManager.PlayRandom`, which any caller may invoke between ticks.
- `Session.Session.RunTicks` runs ticks back to back. It does not interleave those timer-driven `PlayRandom` calls.
- Exceptions from browser calls swallowed by `try`/`catch` are not modelled. The exception is failing to build the audio node graph, which is the input `graphOk`.
- Progress is a count of eighths of a percent, so `setTrolleyProgress` is modelled only for multiples of 0.125 %. Every caller in the script passes such a value.
- Floating-point rounding is not modelled. This covers fractional element sizes from `getBoundingClientRect` (and its `|| 0` fallback) and direction weights that are not multiples of 0.01. Sizes are integers and `Math.round` is exact rational rounding.
