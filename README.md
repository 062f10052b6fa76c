# ImAlive reactive agent: a Dafny model

The repository holds an on-screen "character" agent, `AliveClass`, that the
host app drives through callbacks. It comes in two near-identical variants,
ActionResponseTemplate and ActionResponseCharacter, each as TypeScript plus
compiled JavaScript. The agent's decision logic is small:

- a tilt classifier maps (screen orientation, surface angle) to a falling
  category and a signed speed using fixed open-interval bands, keeping the
  sentinel speed `-999` when no band matches;
- the tilt reaction draws the category, plays its sound when a random roll
  allows it, and moves the character by the speed over 250 ms; with no band
  matched it only draws the activation image;
- a drag-direction classifier picks move left/right/up/down, and release
  and activation issue fixed moves;
- a sound gate deduplicates in the Template agent (it skips a repeat of the
  last category while a sound is playing) and lets everything through in
  the Character agent.

The model has the following modules:

- `Tilt`: the classifier `Classify`, plus a second description of it as a
  band table. Lemmas show the two agree and that the bands are pairwise
  disjoint.
- `Gestures`: the drag-direction choice and the release snap condition.
- `Text`: the first occurrence of a pattern in a string, counted in
  characters. The source only compares its result with -1, in the
  `"SCREEN_OFF"` test.
- `Playback`: the sound gate as a function, with lemmas about runs of
  requests.
- `Behaviour`: the commands a draw-and-play and a tilt reaction issue, as
  functions of the gate fields and the host readings.
- `Agent`: the class `AliveClass`, whose fields the handlers update in
  place. Every handler's ensures give the exact new gate fields and the
  exact commands it appends, most of them through `Behaviour`.
- `TickRecursion`: the self-recursive `onTick` as written (see Findings).

A single class models all three variants. Its `variant` constant says which
one it is:

- `Template` is ActionResponseTemplate/app.ts.
- `TemplateBuild` is ActionResponseTemplate/app.js, an older build.
- `Character` is ActionResponseCharacter/app.ts together with its app.js,
  which has the same logic.

The gate policy follows from the variant. Handlers branch on `variant`
only where the sources differ.

What comes from the host is passed into the handlers as parameters:

- `Host` holds the host readings: orientation, angle, the dragged flag, the
  screen-off flag, the sound-playing flag, the screen height and the maximal
  resize ratio.
- `Selector` gives the answers of the random image and sound pickers for
  the current call. It is a pair of functions from category names to an
  optional resource. A different selector per call models the randomness.
- `soundRoll` stands for `Math.random() > 0.8`.

The commands issued to the action and rest managers are appended to the
`log` field.

Two points of the behaviour are easy to get wrong:
- An unmatched tilt reading only draws the activation image. It does not
  play its sound (ActionResponseTemplate/app.ts:111-113).
- The unconditional gate is the Character agent's
  (ActionResponseCharacter/app.ts:214-221). Both Template builds
  deduplicate.

## Model

| member | source | states |
|---|---|---|
| `Tilt.Classify` | ActionResponseTemplate/app.ts:70-102 | The sentinel (`""`, `-999`) comes back exactly when the speed is `-999`. Otherwise the category is falling-right with speed in (0, 60) or falling-left with speed in (-60, 0). |
| `Tilt.ClassifyIsFirstMatch` | ActionResponseTemplate/app.js:38-70 | The if/else chain equals a first-match search of the band table: two portrait bands and four landscape bands, in source order. |
| `Tilt.BandsAreGood` | ActionResponseCharacter/app.js:19-46 | Every band is 60 degrees wide, right bands measure speed from their low bound, left bands from their high bound, and the bands of an orientation are pairwise disjoint. |
| `Tilt.FirstMatchIsAnyMatch` | ActionResponseTemplate/app.ts:85-102 | In a table of disjoint bands, the band that holds the angle decides the result, wherever it sits in the table. So the test order never matters. |
| `Tilt.FirstMatchMissesAll` | ActionResponseTemplate/app.ts:71-72 | When no band holds the angle, the initial `speed = -999`, `category = ""` survive. |
| `Tilt.ClassifyByBands` | ActionResponseCharacter/app.ts:45-77 | The band holding the angle gives category and `speed = angle - origin`. With no such band the result is the sentinel. `speed != -999` holds exactly when some band holds the angle. |
| `Tilt.ClassifyExamples` | ActionResponseTemplate/app.ts:75-102 | Portrait 40 gives right 30 and 320 gives left -30. Landscape 300, 230, 130 and 50 give right 20, left -30, right 30 and left -30. Angle 0, outside every band, and angles 70 and 340, on band edges, match nothing. |
| `Gestures.DragDirection` | ActionResponseTemplate/app.ts:146-165 | Right exactly when `newX - oldX > abs(dy)`, left exactly when `oldX - newX > abs(dy)`. Down exactly when `newY > oldY` and `dy >= abs(dx)`. Up exactly when `oldY - newY >= abs(dx)`. So ties and no movement go vertical. |
| `Gestures.DragReversed` | ActionResponseCharacter/app.ts:115-135 | Swapping the start and end of a real drag flips the direction. |
| `Text.IndexOfFrom` | ActionResponseTemplate/app.ts:133 | The result is the first position, in characters, at or after `from` where the pattern occurs, or -1 exactly when it occurs nowhere from there on. The source only tests the result against -1. |
| `Text.IndexOf` | ActionResponseTemplate/app.ts:133 | -1 exactly when the pattern occurs nowhere. Otherwise the pattern occurs at the result and at no earlier position, counting in characters. Only the comparison with -1 matters to the source. |
| `Playback.Gate` | ActionResponseTemplate/app.ts:305-315 | A suppressed request (deduplicating, same category, sound playing) changes nothing and plays nothing. Otherwise one `Play` is issued exactly when a sound is found, and `lastPlaySoundTime` becomes the current time exactly then. The deduplicating gate always ends with the requested category remembered, found or not. The unconditional gate never changes it and plays every found sound. |
| `Playback.RepeatsWhilePlayingAreSuppressed` | ActionResponseTemplate/app.js:245-254 | Once a category is remembered, any number of further requests for it while playing leave the state unchanged and issue nothing. |
| `Playback.BurstPlaysOnce` | ActionResponseTemplate/app.ts:305-307 | A run of requests for one category, all but the first while playing, issues at most one `Play`. If the first request gets through and finds a sound, the run's only command is that `Play`. |
| `Playback.SwitchingCategoryPlays` | ActionResponseTemplate/app.ts:306-313 | A request for a category other than the remembered one gets through whatever the playing flag. With a sound found it plays it and stamps the time. |
| `Playback.UnconditionalPlaysEverySound` | ActionResponseCharacter/app.ts:214-221 | Over any run, the unconditional gate issues one `Play` per found sound and nothing else. It does not touch the remembered category. |
| `Behaviour.DrawAndPlayShape` | ActionResponseTemplate/app.ts:285-299 | A draw-and-play issues no move, and one draw exactly when an image is found, which is that image. It issues one play exactly when the gate lets the request through and a sound is found, and the play is that sound. It issues nothing else. |
| `Behaviour.ReactOnMatch` | ActionResponseTemplate/app.ts:104-110 | On a match: exactly one move, `Move(speed, 0, 250)`, issued last, with `0 < abs(speed) < 60` and never `-999`. One draw exactly when the category's image exists, and it draws that image. One play exactly when the roll allows it, the gate lets the request through and the category has a sound, and it plays that sound. Without the roll the gate fields are unchanged. |
| `Behaviour.ReactOnNoMatch` | ActionResponseCharacter/app.ts:79-88 | With no band matched, only the activation image is drawn. There is no move, no play, and the gate fields are unchanged. |
| `Agent.AliveClass.constructor` | ActionResponseTemplate/app.ts:30-34 | `currentTime` and `lastPlaySoundTime` start at 0, the last category is undefined and the log is empty. |
| `Agent.AliveClass.DrawRandomResourceByCategory` | ActionResponseTemplate/app.ts:294-299 | Appends `Draw(image, resizeRatio)` when an image is found, nothing otherwise. |
| `Agent.AliveClass.PlayRandomResourceByCategory` | ActionResponseCharacter/app.js:158-164 | The new gate fields and the appended commands are those of `Playback.Gate` under the variant's policy. |
| `Agent.AliveClass.DrawAndPlayRandomResourceByCategory` | ActionResponseTemplate/app.ts:285-288 | New gate fields and appended commands as `Behaviour.DrawAndPlay` gives them. |
| `Agent.AliveClass.ReactToSurfaceChange` | ActionResponseTemplate/app.ts:70-114 | New gate fields and appended commands as `Behaviour.React` gives them for the host's orientation and angle. |
| `Agent.AliveClass.OnStart` | ActionResponseTemplate/app.ts:41-53 | Logs `Move(0, screenHeight, 0)`, then the activation draw and the activation play, which is never suppressed. It takes the maximal resize ratio. The Template builds end with the activation category remembered and the Character agent leaves it untouched (same flow at ActionResponseCharacter/app.ts:95-108). |
| `Agent.AliveClass.OnTick` | ActionResponseTemplate/app.ts:60-65 | Reacts to the tilt exactly when not dragged and the screen is on, otherwise issues nothing. Always sets `currentTime := time`, after the reaction, so a sound it plays carries the previous tick's time. |
| `Agent.AliveClass.OnBackgroundTick` | ActionResponseTemplate/app.ts:121-123 | Same effect as `OnTick`. |
| `Agent.AliveClass.OnPhoneEventOccurred` | ActionResponseTemplate/app.ts:131-137 | Draws and plays the event name as a category. In the current Template source it then logs `VerifyIdentity` exactly when the name contains `"SCREEN_OFF"`. In the older build it first logs `ShowMessage(name + " received")` and never verifies (ActionResponseTemplate/app.js:95-98). |
| `Agent.AliveClass.OnActionReceived` | ActionResponseCharacter/app.ts:110-113 | Logs `ShowMessage(categoryName + " received")`, then the draw and play of that category. |
| `Agent.AliveClass.OnMove` | ActionResponseTemplate/app.js:106-125 | Draws and plays the category `Gestures.DragDirection` picks. |
| `Agent.AliveClass.OnRelease` | ActionResponseTemplate/app.ts:172-178 | Draws and plays the release category, then logs `Move(0, h - 50, 250)` exactly when `currentY < h - 50`. |
| `Agent.AliveClass.OnPick` | ActionResponseTemplate/app.ts:185-187 | Draws and plays the pick category. |
| `Agent.AliveClass.OnResponseReceived` | ActionResponseTemplate/app.js:167-169 | Logs the response as a message and nothing else. |
| `TickRecursion.TickAsWrittenNeverReturns` | ActionResponseCharacter/app.ts:36-43 | For every stack depth, the as-written `onTick` exhausts the stack and never returns, so `currentTime = time` is never reached. When the guard `OnTick` uses holds (not dragged, screen on), the reaction runs once per frame before that; otherwise it never runs. |

## Left out

- Manager acquisition from the handler bag, and the rest manager in `onStart`, are host plumbing with no logic. The managers are replaced by the `Host` and `Selector` parameters and the command log.
- `ResourceManagerHelper` (the uniform random choice of a resource) is not part of this model, and neither is `Math.random()`. They are the `Selector` and `soundRoll` parameters.
- The host's `AgentConstants` is not part of this model. Category names are taken to be distinct strings spelled like their identifiers.
- `onLocationReceived`, `onUserActivityStateReceived` and `onWeatherReceived` only format numbers into a message string with `toString()`. They are left out.
- `onMenuItemSelected`, `onConfigureMenuItems`, `onSpeechRecognitionResults`, `onPlacesReceived` and `onHeadphoneStateReceived` have empty bodies and are left out.
- Agent.AliveClass.OnResponseReceived: in ActionResponseTemplate/app.ts:215-219 it also sends the response, JSON-encoded, to the system-message sink and POSTs it to a fixed external URL. The JSON encoding and the network call are left out. So is the colour and duration arguments' effect on `showMessage` there.
- The third argument of `draw` (always `false`) and the second argument of `playSound` in the TypeScript Template (always `false`) are constants and are not recorded.
- Fields that are declared or initialised but never read are not modelled: `lastTime`, `lastVisabilityChangeTime`, `visible`, `deadPainted`, `lastFallLeftTime`, `lastFallRightTime`.
- Text.IndexOf and Text.IndexOfFrom count positions in characters (Unicode scalar values), while JavaScript's `indexOf` counts UTF-16 code units. They also answer -1 when the start position is past the end of the string, where JavaScript clamps it. The source only tests `indexOf(...) != -1` from position 0, and on that test the two agree.
- Angles, coordinates, heights and times are integers. JavaScript numbers may be fractional. The classifier's bounds are all strict comparisons, so fractional angles would behave the same way, but the model does not cover them.
- Calls before `onStart` get a meaning here that the source does not give them. In the source they would dereference undefined managers and throw. The model's handlers accept them, and a draw then carries the constructor's placeholder `resizeRatio` of 0. The host always calls `onStart` first.
- Any orientation value other than portrait takes the landscape branch, as in the source. The model has only the two values.
- Agent.AliveClass.OnTick: the self-recursive call of ActionResponseCharacter/app.ts:40, ActionResponseCharacter/app.js:11 and ActionResponseTemplate/app.js:32 is not modelled in the handler. The same holds for Agent.AliveClass.OnBackgroundTick, which enters that `onTick` at ActionResponseTemplate/app.js:86-88 and ActionResponseCharacter/app.js:57-59. `OnTick` is the corrected handler of the Findings below. The as-written behaviour is only described by `TickRecursion`.
- Agent.AliveClass.OnPhoneEventOccurred requires a Template variant and Agent.AliveClass.OnActionReceived requires the Character variant, because each handler exists only in those classes.

## Findings

| source | as written | input that shows it | evidently intended | confidence | as-written member | corrected member |
|---|---|---|---|---|---|---|
| ActionResponseCharacter/app.ts:40 | `onTick` calls itself with the same time before it sets `currentTime`, with no condition | any call `onTick(t)`: for every stack depth the call exhausts the stack and never returns | react once per tick and record the tick time, as ActionResponseTemplate/app.ts:60-65 does | high (not executed) | `TickRecursion.TickAsWrittenNeverReturns` | `Agent.AliveClass.OnTick` |
| ActionResponseCharacter/app.js:11 | the compiled form repeats the unconditional `this.onTick(time)` | any call `onTick(t)` | as above | high (not executed) | `TickRecursion.TickAsWrittenNeverReturns` | `Agent.AliveClass.OnTick` |
| ActionResponseTemplate/app.js:32 | the older Template build has the same unconditional `this.onTick(time)` | any call `onTick(t)` or `onBackgroundTick(t)` | as above | high (not executed) | `TickRecursion.TickAsWrittenNeverReturns` | `Agent.AliveClass.OnTick` |
