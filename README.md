# Mandarin 3D Quest: verified model of the game bookkeeping

Mandarin 3D Quest is a browser game in an A-Frame scene. The player walks between
15 quiz stations (by joystick or by teleport pads), and each station asks one
pronunciation question with two answers. This project models the small amount of
state behind the scene, and proves what that state promises.

- **`Types`** (`types.dfy`): `Vector3`, `QuizOption` and `QuizData` from types.ts,
  with the five shape tags.
- **`Sound`** (`sound.dfy`): the audio module of utils/sound.ts.
  - It has two module-level variables, `audioUnlocked` and `globalAudioContext`.
  - `unlockAudio` short-circuits once unlocked and creates the context at most once. It sets the flag only on full success.
  - `speakMandarin` and `playCorrectSound` share an unlock guard; the chime has a fixed schedule.
  - Pure functions (`Unlock`, `Speak`, `PlayCorrect`) give the effect of each call on the abstract state. The class `AudioModule` changes its fields the same way, and is proved to agree with them.
  - What the browser does (is there an AudioContext class, does a step throw, the context state, `currentTime`) is a `Platform` argument. Every call into the browser is appended to a ghost log.
- **`Station`** (`quiz_station.dfy`): one `QuizStation` component.
  - Its two state fields accept exactly one answer.
  - A right first answer plays the chime, says "正确" and calls `onCorrect`; a wrong one says "错误".
  - The module also has the listen button, the option colouring, and the shape-to-primitive switch.
  - A ghost trace `effects` records every side effect. The pure `Interact`/`RunClicks` give the same behaviour on values.
- **`Joystick`** (`joystick.dfy`): the on-screen joystick. Start, move, end and leave drive an `active` flag, the stick offset and the shared `window.JOYSTICK_VECTOR`.
- **`App`** (`app.dfy`): App.tsx.
  - The constant 15-entry quiz table, and the 22 teleport pads built by four loops.
  - The game state: score, camera, start prompt, and one station object per table entry.
  - The score is kept equal to the number of `onCorrect` calls the stations have made, which bounds it by the number of stations.

Each event handler is one atomic step. The `await`s inside the sound functions are not interleaved with other handlers, and the two sound calls of a right answer run one after the other (see "Left out").

## Model

| member | source | states |
|---|---|---|
| Sound.CorrectChime | utils/sound.ts:69-78 | sine wave; frequency 880 Hz at t, ramping exponentially to twice that by t+0.1; gain 0.5 at t, ramping exponentially down to 0.01 by t+0.5; stop at t+0.5 |
| Sound.Unlock | utils/sound.ts:7-38 | unlocked already: true, no calls. No AudioContext class: false, no calls. The flag is set iff the result is true; from a locked state that is exactly when class, constructor, resume and probe all succeed, and then the probe is the last call. From a locked state with an AudioContext class the context exists afterwards iff it existed or the constructor succeeded, so a context built in the call survives a failed resume or probe; it is created only when missing; resume is called iff the context state is suspended. Once a context exists it is kept |
| Sound.CountCreatesAppend | utils/sound.ts:14-16 | the number of context creations in a concatenated call log is the sum of the two parts |
| Sound.Speak | utils/sound.ts:40-52 | the guard: `unlockAudio` runs iff the module is locked, and an unlocked module only makes the speech request; afterwards the speech request for `text` is always the last call; the reachable-state invariant is kept |
| Sound.PlayCorrect | utils/sound.ts:54-79 | `unlockAudio` runs iff locked; with no context afterwards, or when the chime's own Web Audio calls throw, nothing is scheduled and the state is what the unlock left; with a context and no throw the chime is the last call, even when the unlock failed; an unlocked module only schedules the chime, or nothing if it throws |
| Sound.RunCreatesContextOnce | utils/sound.ts:14-16 | over any sequence of `unlockAudio`/`speakMandarin`/`playCorrectSound` calls the context, once created, is kept, and it is created at most once: exactly once iff it was missing at the start and exists at the end |
| Sound.RunAfterUnlock | utils/sound.ts:8 | once unlocked, any sequence of calls leaves the state unchanged, calls `unlockAudio` only if the sequence calls it directly, and makes no set-up call (create, resume, probe) |
| Sound.AudioModule.constructor | utils/sound.ts:3-4 | module load: no context, flag false, empty log |
| Sound.AudioModule.UnlockAudio | utils/sound.ts:7-38 | result, new flag/context and appended calls are those of `Unlock`; an existing context object is never replaced, a new one is fresh; the class invariant (flag only with a context, one creation per context) is kept |
| Sound.AudioModule.SpeakMandarin | utils/sound.ts:40-52 | new state and calls are those of `Speak`; `unlockAudio` is entered only when the flag was false |
| Sound.AudioModule.PlayCorrectSound | utils/sound.ts:54-79 | new state and calls are those of `PlayCorrect`; `unlockAudio` is entered only when the flag was false |
| Station.CountReportsAppend | components/QuizStation.tsx:26 | `onCorrect` calls in a concatenated trace add up |
| Station.Response | components/QuizStation.tsx:23-29 | a right answer causes exactly one `onCorrect` call and the chime; a wrong one neither |
| Station.Interact | components/QuizStation.tsx:17-30 | afterwards the station is answered; an answered station keeps its state and causes nothing; a first click records its option id; a right one causes chime, "正确", `onCorrect` in that order; a wrong one only "错误"; `onCorrect` count is 1 exactly for a right first answer |
| Station.LockedRun | components/QuizStation.tsx:18 | from an answered state any sequence of clicks changes nothing and causes nothing |
| Station.FirstClickDecides | components/QuizStation.tsx:17-30 | over any non-empty sequence of clicks on a fresh station only the first counts: it fixes the state and the effects, so `onCorrect` is called once if it was right and never otherwise |
| Station.PerformCorrect | components/QuizStation.tsx:24-25 | the sound effects of a right answer are `playCorrectSound()` followed by `speakMandarin("正确")` |
| Station.PerformWrong | components/QuizStation.tsx:28 | the sound effect of a wrong answer is `speakMandarin("错误")` alone |
| Station.Announce | components/QuizStation.tsx:23-29 | the sound module ends in the state, with the calls, that the first answer's effect list prescribes |
| Station.AnnounceCorrect | components/QuizStation.tsx:24-25 | the chime and then "正确", as the right-answer effect list prescribes |
| Station.ShapePrimitive | components/QuizStation.tsx:56-69 | each of the five tags is drawn as the primitive of that name (`a-<tag>`); any other tag falls back to the 0.6 box that "box" gives |
| Station.QuizStation.constructor | components/QuizStation.tsx:14-15 | a new station is unanswered, with no selection and no effects |
| Station.QuizStation.ReportedAtMostOnce | components/QuizStation.tsx:18-26 | in any reachable station state `onCorrect` has been called at most once, and only once answered |
| Station.QuizStation.HandleInteraction | components/QuizStation.tsx:17-30 | new answer state and appended effects are those of `Interact`; the result (the `onCorrect` call) is true iff unanswered before and right; an answered station and the sound module are left untouched; the sound module's new state and calls are those of the effects |
| Station.QuizStation.ClickOption | components/QuizStation.tsx:47-53 | clicking option 0 or 1 answers the station with that option's id and reports `onCorrect` iff unanswered and that option is right; a second click changes nothing |
| Station.QuizStation.HandleSpeakQuestion | components/QuizStation.tsx:32-34 | speaks exactly `data.chineseChar` (with the unlock guard) and leaves the station unchanged |
| Station.QuizStation.GetColor | components/QuizStation.tsx:36-42 | green exactly for the chosen option of an answered station when it is right, red exactly when it is wrong, white exactly otherwise |
| Station.QuizStation.OptionColours | components/QuizStation.tsx:36-42 | unanswered: both options white; answered: the chosen option green if right and red if wrong, the other white |
| Station.QuizStation.RenderShape | components/QuizStation.tsx:47-70 | the rendered option is the station's primitive with class "clickable", the colour `getColor` gives, and a click that reports that option's id and flag |
| Joystick.Offset | components/Joystick.tsx:45-50 | the widget centre moved by the offset is the touch point; the offset is zero exactly for a touch on the centre |
| Joystick.ClampedOffset | components/Joystick.tsx:52-59 | inside the circle the offset is kept as is; given the premise on the trigonometric replacement, the stored offset is within 50 px and points the same way as the touch offset |
| Joystick.Normalise | components/Joystick.tsx:63-67 | the vector times 50 gives back the offset with y negated; the vector points forward exactly when the stick is above the centre |
| Joystick.NormaliseBounded | components/Joystick.tsx:55-65 | an offset within the circle gives a vector with both axes in [-1, 1] |
| Joystick.Joystick.constructor | components/Joystick.tsx:7-15 | inactive, stick at the centre, shared vector zeroed on mount |
| Joystick.Joystick.VectorBounded | components/Joystick.tsx:55-67 | while mounted, both axes of the shared vector lie in [-1, 1] |
| Joystick.Joystick.UpdateStick | components/Joystick.tsx:42-68 | no attached base (`None` rectangle): nothing changes; otherwise the offset is the (clamped) touch offset and the vector is its normalisation; the invariant (offset in the circle, vector matches it) is kept |
| Joystick.Joystick.HandleStart | components/Joystick.tsx:21-27 | activates and then updates the stick from the touch point |
| Joystick.Joystick.HandleMove | components/Joystick.tsx:29-33 | while inactive nothing changes; while active the stick updates; `active` is unchanged |
| Joystick.Joystick.HandleEnd | components/Joystick.tsx:35-40 | from any state: inactive, offset and vector zero |
| Joystick.Joystick.OnMouseLeave | components/Joystick.tsx:74 | a release when active, otherwise nothing changes |
| Joystick.Joystick.Unmount | components/Joystick.tsx:16-18 | the unmount clean-up zeroes the shared vector |
| App.QuizTableSize | App.tsx:11-218 | the quiz table has 15 entries |
| App.QuizIdsDistinct | App.tsx:11-218 | no two stations share an id |
| App.QuizEntriesWellFormed | App.tsx:11-218 | every station has exactly one right option, two distinct option ids, and one of the five shape tags |
| App.Column | App.tsx:222-225 | one loop's pads: n pads at fixed x, z stepping down from the start by the step |
| App.TeleportPadsShape | App.tsx:221-225 | 22 pads: 8 at x=0 with z=0,-5,...,-35, then 5 at x=-8 and 5 at x=8 with z=0,-8,...,-32, then 4 at x=16 with z=-8,...,-32; all on the ground with z in [-35, 0] |
| App.BuildTeleportPads | App.tsx:221-225 | the four loops produce exactly that table |
| App.NewStations | App.tsx:414-420 | one fresh, unanswered station per table entry, in order, all distinct objects |
| App.TallyBound | App.tsx:354 | if no station reports more than once, the total is at most the number of stations |
| App.TallyUpdate | App.tsx:320-322 | replacing one station's trace changes the total by that station's difference |
| App.TallyNone | App.tsx:287 | no station has reported: the total is 0 |
| App.Game.constructor | App.tsx:287-291 | score 0, camera at (0, 1.6, 0), not ready, audio not ready, prompt shown; one fresh unanswered station per `QUIZ_DATA` entry |
| App.Game.ScoreBound | App.tsx:354 | 0 <= score <= number of stations = length of the quiz table |
| App.Game.Mount | App.tsx:293-294 | the mount effect sets the ready flag |
| App.Game.HandleCorrectAnswer | App.tsx:320-322 | the score goes up by exactly 1 |
| App.Game.HandleTeleport | App.tsx:316-318 | the camera moves to (x, 1.6, z) of the target |
| App.Game.HandleStartGame | App.tsx:310-314 | `audioReady` is the result of `unlockAudio`, the prompt is hidden, the sound module changes as `Unlock` says |
| App.Game.Click | App.tsx:414-419 | a click on a station's option raises the score by 1 iff the station was unanswered and the option right; the score stays equal to the number of `onCorrect` calls and within [0, stations] |

## Left out

- components/TouchMove.ts (the per-frame movement from the joystick vector) is not part of this model. It is floating-point vector maths against the camera orientation.
- The trigonometry of the joystick clamp (`Math.sqrt`, `Math.atan2`, `Math.cos`, `Math.sin`). The clamp test is done on squared lengths. The replacement offset is an argument, with the premise that it lies on the touch point's ray within 50 px.
- JavaScript numbers are modelled as mathematical reals. Rounding and `-0` are ignored.
- `containerRef.current.getBoundingClientRect()` is an argument of each joystick call (`None` when the base is not attached), so it may differ from call to call, as in the source. `stopPropagation` has no effect on the modelled state and is not modelled.
- The mouse and touch handlers of the joystick (`onMouseDown`, `onTouchStart`, …) pass a point through to `handleStart`, `handleMove` and `handleEnd`. Those three are modelled; the wrappers are not, except `onMouseLeave`.
- Web Audio nodes, `new Audio(url).play()` and the Google Translate TTS URL with its `encodeURIComponent` are not modelled. Only the calls the module makes are recorded: create, resume, the silent probe, the chime schedule, and the speech request for a text.
- `console.error` logging is not modelled.
- The chime's Web Audio calls (utils/sound.ts:62-78) are outside any `try`. When one of them throws (`Platform.chimeThrows`), the promise of `playCorrectSound` rejects and the model logs no chime. The calls made before the throw are not recorded.
- The probe and the chime throw independently in the model (`probeThrows`, `chimeThrows`), although they make the same kinds of Web Audio calls.
- Station.QuizStation.HandleInteraction: the two sound calls of a right answer run one after the other in the model.
  - `playCorrectSound()` completes, then `speakMandarin("正确")` starts.
  - So the model makes a single unlock attempt and logs the chime before the speech.
  - The source does not await `playCorrectSound()` before calling `speakMandarin` (components/QuizStation.tsx:24-25).
  - From a locked module, `playCorrectSound` always waits at `await unlockAudio()` (utils/sound.ts:57), so `speakMandarin` starts before the chime is scheduled. What it does then depends on how the first `unlockAudio` went.
  - First unlock done without waiting, and successful (context not suspended, probe succeeds): `speakMandarin` sees the flag set and makes the speech request at once.
    - The source logs Create, Probe, PlaySpeech, Chime.
    - The model logs Create, Probe, Chime, PlaySpeech.
  - First unlock done without waiting, but the probe throws: the flag stays false, so `speakMandarin` enters `unlockAudio` a second time and tries the probe again. Since it then waits, the chime still comes before the speech, as in the model; but the model makes only one attempt.
  - Context suspended: the first `unlockAudio` waits at `resume()`. `speakMandarin` still sees the flag false and enters `unlockAudio` a second time. Its continuation is queued after that of `playCorrectSound`.
    - The source logs Create, Resume, Resume, Probe, Probe, Chime, PlaySpeech.
    - The model logs Create, Resume, Probe, Chime, PlaySpeech.
  - No AudioContext class: both unlock attempts return false at once. The order is the model's: no chime, then the speech request.
  - From an unlocked module there is no `await` before the chime, and the model's order is the source's.
- Station.AnnounceCorrect: the same sequential ordering of the chime and "正确" as `HandleInteraction`, with the same differences from the source.
- Async ordering between handlers is not modelled. Each handler runs to completion before the next. One `Platform` value describes the browser for the whole handler, including both sound calls of a right answer.
- This revision of utils/sound.ts does not stop an earlier utterance before playing a new one. Speech preemption is therefore not modelled: each speech request is only logged.
- Rendering is not modelled: ChineseCharBoard, OptionLabel, TeleportPad, Windmill, Cloud and the scene markup. The station's `position` string (`posStr`) and the score text are also left out.
- `CLOUD_POSITIONS` and `WINDMILL_POSITIONS` are not modelled. The first is random floats; the second is only passed to rendering.
- The speech-synthesis voice preloading in the App mount effect is browser glue and is not modelled.
- `QuizOption.label` is called `labelText`, because `label` is a Dafny keyword.
- Station.QuizStation.ClickOption: states the answer state and the `onCorrect` result but not the sound calls, because `HandleInteraction`, which it calls, states those.
- App.Game.Click: does not restate the sound module's calls, which `HandleInteraction` states. The game only needs the score and the station invariant.
- App.Game.ScoreBound: bounds the score by the length of the game's own table. `App.Game.constructor` ties that table to `QUIZ_DATA`, and `App.QuizTableSize` gives its length, 15.
