# Portfolio card animations, modelled in Dafny

This project models the behaviour of a React portfolio site's project cards. It covers four parts.

- **Animation choice.** `renderViz` in `ProjectCard.jsx` picks one of nine canvas animations by a
  case-sensitive substring test on the project title. When no keyword matches, the card falls back
  to a static image.
- **Visibility latch.** The `useScrollAnimation` hook sets `isVisible` once, on the first
  intersecting observer entry, and then stops observing.
- **Count-up.** The `Counter` component counts up to `parseInt(value, 10)` with an interval, and a
  timeout forces the final value. The interval tick, the timeout and the effect cleanup are
  events that can arrive in any order.
- **Frame state.** This is the state that each canvas animation in `ProjectAnimations.jsx` keeps
  between frames:
  - the Alzheimer particle cloud and scan line;
  - the churn users, spawned, advanced and spliced out inside a `forEach`;
  - the SharePoint 2×2 tile layout;
  - the Titanic four-state machine;
  - the bouncing movie ticket price;
  - the YouTube view counter;
  - the diabetes heartbeat sweep;
  - the MCQ scan beam and its pulse and card phases.

Each stateful component is a `class` whose fields are the component's closure variables, and each
of its methods is proved against a pure step function. The properties are lemmas about those step
functions. They cover invariants that every run keeps, exact timings and periods, and the
quirks of the code as written: the follower of a spliced-out user is skipped, a title is matched
case-sensitively, and a timeout can fire before the last interval tick.

Modules, one per file:

| module | models |
|---|---|
| `Wrappers` | `Option` |
| `ProjectCard` | `renderViz`, the image fallback, the hover effect, the indicator |
| `PortfolioData` | the nine project entries of `src/data.js`, used as test vectors |
| `ScrollAnimation` | `useScrollAnimation` |
| `JsNumber` | `parseInt(s, 10)` and the text React renders for a number |
| `Counter` | `Counter` |
| `Modular` | a remainder lemma shared by the frame counters |
| `AlzheimerViz`, `ChurnViz`, `SharePointViz`, `TitanicViz`, `MovieViz`, `YoutubeViz`, `DiabetesViz`, `McqViz` | the per-frame state of each canvas animation |

The model has no real I/O, clock or randomness. These become parameters instead:

- **Random draws.** Every value of `Math.random()` is a parameter: a `Draw`, a `roll`, or a
  `rolls: nat -> real` indexed by the `forEach` callback index.
- **Trigonometry.** Every `Math.sin` and `Math.cos` value that feeds the state (the Titanic bob,
  the heartbeat dip, the Alzheimer angle) is also a parameter.
- **Canvas size.** The canvas size is `width`/`height` fields, set by the constructor and by the
  resize handler.
- **Frames.** One frame is one call to `Frame`.
- **Timers and observer callbacks.** These are method calls (`OnTick`, `OnTimeout`, `OnCleanup`,
  `OnEntries`, `Teardown`) that may come in any order.

Quantities that step by whole numbers are `int`: `scanY`, `x`, `tick`, `views`, `sinkDelay`, the
counter. The movie price moves in steps of 0.5, so it is counted in half-units. The remaining
geometry is `real`.

Where the design description and the code differ, the model follows the code.

- **Design:** the Counter always ends exactly on its target, whatever the rounding of its steps. **Code:** this
  holds only because the timeout sets `end`. The interval's cleanup does not clear the timeout, and
  a timeout that fires before the last tick is overwritten by that tick.
  `Counter.TimeoutBeforeLastTickIsInexact` shows that order. `Counter.ExactAfterLateTimeout` and
  `Counter.ExactAfterCompletedInterval` state when the value is exact.
- **Code:** the count-up itself never shows. See "## Findings".

## Model

| member | source | states |
|---|---|---|
| ProjectCard.RenderViz | src/components/ProjectCard.jsx:32-43 | A selected animation's keyword occurs in the title, and no keyword tried earlier does. The result is `null` exactly when none of the nine keywords occurs. |
| ProjectCard.FirstFrom | src/components/ProjectCard.jsx:32-43 | Reference search over the keyword table from position `i`. It returns the first entry whose keyword occurs, or nothing exactly when none from `i` on occurs. |
| ProjectCard.RenderVizIsFirstMatch | src/components/ProjectCard.jsx:32-43 | The `includes` chain returns the same result as the first-match search over the ordered keyword table, for every title. |
| ProjectCard.FirstKeywordSelects | src/components/ProjectCard.jsx:32-43 | Converse of the chain: if a title contains `v`'s keyword and no earlier keyword, it selects `v`. |
| ProjectCard.AlzheimerWins | src/components/ProjectCard.jsx:33 | "Alzheimer" is tried first, so it wins whatever other keywords the title also contains. |
| ProjectCard.NoKeywordSelectsNone | src/components/ProjectCard.jsx:42 | A title with none of the nine keywords yields `null`. |
| ProjectCard.LowercaseYoutubeSelectsNothing | src/components/ProjectCard.jsx:40 | The test is case-sensitive: "youtube" matches nothing. |
| ProjectCard.MixedCaseMcqSelectsNothing | src/components/ProjectCard.jsx:41 | The test is case-sensitive: "Mcq" matches nothing. |
| ProjectCard.VizOrImage | src/components/ProjectCard.jsx:73-75 | The container shows a canvas exactly when `renderViz` selects one, and that canvas is the one selected. Otherwise it shows the image, with the title as alt text. |
| ProjectCard.Media | src/components/ProjectCard.jsx:56-76 | Both branches show the same `renderViz() \|\| <img>` container. A `<video>` element follows it exactly when `project.video` is truthy. |
| ProjectCard.HoverEffect | src/components/ProjectCard.jsx:14-29 | With no video element, the effect does nothing. With one, hovering plays it, and leaving pauses and rewinds it. |
| ProjectCard.NoVideoNoCommand | src/components/ProjectCard.jsx:14-16 | A project without `video` renders no video element, so hovering never plays or pauses anything. |
| ProjectCard.Indicator | src/components/ProjectCard.jsx:77-79 | The text is "Playing" exactly while hovering and "Paused" otherwise. The class list always starts with `video-indicator `. It ends in `active` exactly while hovering. |
| PortfolioData.SelectsAlzheimer | src/data.js:81 | The Alzheimer entry's title selects the Alzheimer animation. |
| PortfolioData.SelectsChurn | src/data.js:94 | The churn title selects the churn animation. |
| PortfolioData.SelectsSharePoint | src/data.js:107 | The SharePoint title selects the SharePoint animation. |
| PortfolioData.SelectsTitanic | src/data.js:120 | The Titanic title selects the Titanic animation. |
| PortfolioData.SelectsMovie | src/data.js:130 | The movie title selects the movie animation. |
| PortfolioData.SelectsMusic | src/data.js:140 | The music title selects the music animation. |
| PortfolioData.SelectsDiabetes | src/data.js:150 | The diabetes title selects the diabetes animation. |
| PortfolioData.SelectsMcq | src/data.js:160 | "AI-Powered MCQ Generator" passes every earlier test unmatched and selects the MCQ animation. |
| PortfolioData.SelectsYoutube | src/data.js:173 | "YouTube Ad View Prediction" selects the YouTube animation. |
| PortfolioData.EveryProjectSelectsExpected | src/data.js:78-181 | Each of the nine entries selects its own animation, so no card falls back to the image. |
| PortfolioData.ProjectsSelectDistinctVariants | src/data.js:78-181 | The nine entries mount nine different animations. |
| PortfolioData.ProjectsHaveNoVideo | src/data.js:78-181 | No entry has a `video` field; the entries carry `videoUrl` or `image` instead. So every card takes the no-video branch. |
| ScrollAnimation.Mount | src/hooks/useScrollAnimation.js:4-21 | `isVisible` starts false. The target is observed exactly when the ref is attached. |
| ScrollAnimation.Deliver | src/hooks/useScrollAnimation.js:9-15 | A batch with an intersecting entry makes the target visible and unobserved. A batch without one changes nothing. |
| ScrollAnimation.Apply | src/hooks/useScrollAnimation.js:8-27 | Visible afterwards exactly when it was visible before, or it was observed and the batch intersects. Observed afterwards exactly when it was observed and the event neither intersects nor tears down. |
| ScrollAnimation.NeverReverts | src/hooks/useScrollAnimation.js:10-14 | Once visible, visible after any sequence of events. |
| ScrollAnimation.UnobservedIsFinal | src/hooks/useScrollAnimation.js:13 | Once a target is unobserved, no later event changes it. |
| ScrollAnimation.NonIntersectingKeepsState | src/hooks/useScrollAnimation.js:11 | Entries that are not intersecting change nothing. |
| ScrollAnimation.FirstIntersectionSettles | src/hooks/useScrollAnimation.js:11-14 | The first intersecting entry leaves the target visible and unobserved for good. |
| ScrollAnimation.UnattachedNeverVisible | src/hooks/useScrollAnimation.js:18-21 | If the ref is unattached when the effect runs, the target is never visible. |
| ScrollAnimation.TeardownIsFinal | src/hooks/useScrollAnimation.js:23-27 | After the cleanup, the state is frozen at the value the cleanup found. |
| ScrollAnimation.VisibleIffSeenBeforeTeardown | src/hooks/useScrollAnimation.js:7-28 | An attached target ends visible exactly when some intersecting batch arrives before the cleanup (both directions). |
| ScrollAnimation.ScrollLatch.constructor | src/hooks/useScrollAnimation.js:3-21 | The default threshold is 0.1, and the initial state is that of `Mount`. |
| ScrollAnimation.ScrollLatch.OnEntries | src/hooks/useScrollAnimation.js:8-15 | The `forEach` over the entries leaves the state `Apply` gives. |
| ScrollAnimation.ScrollLatch.Teardown | src/hooks/useScrollAnimation.js:23-27 | The cleanup leaves the state `Apply` gives for a teardown. |
| JsNumber.Decimal | src/components/Counter.jsx:32 | A number renders as a non-empty string of digits with no leading zero. |
| JsNumber.DecimalValue | src/components/Counter.jsx:32 | The rendered digits have the number's value. |
| JsNumber.TrimStart | src/components/Counter.jsx:13 | `parseInt` drops exactly the leading white space: the rest is a suffix that does not start with white space. |
| JsNumber.LeadingDigits | src/components/Counter.jsx:13 | The longest prefix of decimal digits: all digits, and followed by a non-digit or the end. |
| JsNumber.ParseIntOfDecimal | src/components/Counter.jsx:13 | `parseInt` reads back the decimal text of any natural number, with any non-digit text after it. |
| JsNumber.ParseIntOfShow | src/components/Counter.jsx:13 | `parseInt` inverts the rendered text of every number, negative numbers and NaN included. |
| JsNumber.ParseIntOfNaNText | src/components/Counter.jsx:13 | `parseInt("NaN")` is NaN. |
| JsNumber.ParseIntOfNegative | src/components/Counter.jsx:13 | `parseInt` reads "-" followed by digits as the negative value. |
| Counter.InitialGood | src/components/Counter.jsx:5-7 | The initial state shows 0, has not animated, and satisfies the run invariant. |
| Counter.StepGood | src/components/Counter.jsx:9-28 | Each event (render, tick, timeout, cleanup) preserves the run invariant. |
| Counter.RunGood | src/components/Counter.jsx:9-28 | Any sequence of events preserves the run invariant. |
| Counter.CountStaysInRange | src/components/Counter.jsx:5-24 | For a positive `end`, the shown count stays between 0 and `end` whatever the order of events. Before the run, it stays 0. |
| Counter.StartsOnce | src/components/Counter.jsx:10-13 | The run starts exactly when the component is visible and has not animated. Otherwise the effect changes nothing. The run's `end` is `parseInt(value)`. |
| Counter.ZeroEndStaysZero | src/components/Counter.jsx:14 | When `end` equals 0, nothing is scheduled and the count stays 0. |
| Counter.TickAdvancesByOne | src/components/Counter.jsx:17-21 | A tick shows `start + 1` and stops the interval exactly when that equals `end`. |
| Counter.QuiescentIsFinal | src/components/Counter.jsx:9-28 | Once nothing is scheduled, no event changes the state. |
| Counter.StoppedIntervalOnlyTimeout | src/components/Counter.jsx:24 | With the interval stopped, the count only ever moves to `end`. |
| Counter.ExactAfterLateTimeout | src/components/Counter.jsx:23-24 | A timeout that fires after the interval has stopped leaves exactly `end`, for good. |
| Counter.ExactAfterCompletedInterval | src/components/Counter.jsx:18-24 | After the interval has counted up to `end`, the count stays exactly `end`. |
| Counter.Ticks | src/components/Counter.jsx:17-21 | `k` consecutive interval ticks. |
| Counter.TicksCountUp | src/components/Counter.jsx:17-21 | Left alone, `k` ticks advance `start` by `k` and show it. The interval stops exactly on `end`. |
| Counter.CountsUpToValue | src/components/Counter.jsx:12-24 | A run for value `n` reaches exactly `n` after `n` ticks, and any later events keep it there. |
| Counter.CleanupRightAfterStart | src/components/Counter.jsx:26-28 | Setting `hasAnimated` re-runs the effect, whose cleanup clears the interval at once. In that order the count is only ever 0 or `end`. |
| Counter.TimeoutBeforeLastTickIsInexact | src/components/Counter.jsx:17-26 | With value "5", the order render, timeout, tick, cleanup leaves the count at 1 for good. |
| Counter.UnreachableEndNeverStops | src/components/Counter.jsx:13-20 | When `parseInt` gives NaN or a negative value, `start === end` never holds, so ticking never stops the interval. |
| Counter.StartWithValue | src/components/Counter.jsx:10-24 | A visible first render of value `n > 0` starts counting from 0 to `n`, with the interval and the timeout both scheduled. |
| Counter.IdleTicks | src/components/Counter.jsx:17-21 | Once the interval is cleared, ticks change nothing. |
| Counter.AsWrittenNeverCountsUp | src/components/Counter.jsx:9-28 | As written, the cleanup of the effect's own re-run clears the interval before its first tick. However many periods pass, the count shows 0 until the timeout fires. |
| Counter.IntendedCountsUp | src/components/Counter.jsx:17-21 | Without that cleanup, the count shows 1, 2, …, `n` on successive ticks. The interval stops exactly at `n`. |
| Counter.Text | src/components/Counter.jsx:32 | The span text is the prefix, then the count, then the suffix. The middle part reads back with `parseInt` as the count. |
| Counter.TextReadsBack | src/components/Counter.jsx:32 | With no prefix and a suffix that starts with a non-digit (such as "%"), the whole text reads back as the count. |
| Counter.ClassName | src/components/Counter.jsx:31 | The class list is "counter visible" exactly when visible, and always starts with "counter ". |
| Counter.CounterRun.constructor | src/components/Counter.jsx:4-7 | The defaults are a duration of 2000 and empty prefix and suffix. The initial state shows 0 and has not animated. |
| Counter.CounterRun.RunEffect | src/components/Counter.jsx:9-24 | The effect leaves the state `Effect` gives. |
| Counter.CounterRun.OnTick | src/components/Counter.jsx:17-21 | The interval callback leaves the state `Tick` gives. |
| Counter.CounterRun.OnTimeout | src/components/Counter.jsx:24 | The timeout callback leaves the state `Timeout` gives. |
| Counter.CounterRun.OnCleanup | src/components/Counter.jsx:26 | The cleanup clears the interval only. |
| Counter.CounterRun.Display | src/components/Counter.jsx:32 | The rendered text is `Text` of the prefix, the count and the suffix. |
| AlzheimerViz.SpawnShape | src/components/ProjectAnimations.jsx:22-36 | A new particle is inactive and at its base position. Its size is in [1, 3). It lies strictly inside the 72×54 oval around the centre. |
| AlzheimerViz.Spawns | src/components/ProjectAnimations.jsx:22-36 | There is one particle per draw, in order. |
| AlzheimerViz.NextScan | src/components/ProjectAnimations.jsx:49 | On a canvas of positive height, the scan line stays in [0, height). It is NaN exactly when it already was NaN or the height is 0. |
| AlzheimerViz.Rescan | src/components/ProjectAnimations.jsx:51-60 | The size is 3 exactly when the particle is within 20 pixels of the scan line, and 1.5 otherwise. Nothing else changes. |
| AlzheimerViz.Rescanned | src/components/ProjectAnimations.jsx:51-65 | Every particle is rescanned in place, and the list keeps its length. |
| AlzheimerViz.ScanPosition | src/components/ProjectAnimations.jsx:42-49 | From the top, the scan line is at `2k mod height` after `k` frames. |
| AlzheimerViz.NaNIsSticky | src/components/ProjectAnimations.jsx:49 | Once the scan line is NaN, it stays NaN. |
| AlzheimerViz.InitShape | src/components/ProjectAnimations.jsx:21-36 | `init` always leaves exactly 150 inactive particles, each of size in [1, 3), so resizing never accumulates particles. |
| AlzheimerViz.RescanKeepsPositions | src/components/ProjectAnimations.jsx:51-65 | A frame moves no particle and activates none. It only sets sizes to 3 or 1.5. |
| AlzheimerViz.Scene.constructor | src/components/ProjectAnimations.jsx:15-42 | Mounting runs `init` and sets `scanY = 0`. |
| AlzheimerViz.Scene.Init | src/components/ProjectAnimations.jsx:15-37 | `init` clears the list and pushes 150 particles for the new centre. |
| AlzheimerViz.Scene.Frame | src/components/ProjectAnimations.jsx:44-65 | A frame moves the scan line and then rescans every particle. |
| ChurnViz.Spawn | src/components/ProjectAnimations.jsx:105-113 | A new user is at x = 0 and not churned. Its y is in [20, height − 20] and its speed in [1, 3). |
| ChurnViz.Advance | src/components/ProjectAnimations.jsx:125-137 | The user moves right by its speed. It churns for good, and only past 60% of the width with a draw above 0.7. A churned user drops one pixel a frame. |
| ChurnViz.Pass | src/components/ProjectAnimations.jsx:124-149 | The `forEach` with `splice`, as written. It never lengthens the list. |
| ChurnViz.AdvanceAll | src/components/ProjectAnimations.jsx:124-149 | Reference behaviour: every user is advanced, then those off the canvas are dropped. |
| ChurnViz.PassWithoutRemoval | src/components/ProjectAnimations.jsx:124-149 | When nobody leaves, the pass equals the reference behaviour: every user is advanced once, in order. |
| ChurnViz.FirstRemovalSkipsFollower | src/components/ProjectAnimations.jsx:124-149 | For any list, let `i` be the first user to leave with at least one user behind it. The pass advances every user before `i` exactly as the reference does. It keeps the follower at `i + 1` unadvanced in `i`'s place, and resumes the pass at `i + 2`. |
| ChurnViz.FollowerOfRemovedIsSkipped | src/components/ProjectAnimations.jsx:146-148 | Concrete instance for a two-user list `[a, b]` where `a` leaves and `b` moves: the pass leaves `[b]` unadvanced, and the reference leaves `b` advanced, so the two differ. |
| ChurnViz.PassKeepsInputs | src/components/ProjectAnimations.jsx:124-149 | Every user the pass keeps is an input user, either advanced or unchanged. |
| ChurnViz.Scene.constructor | src/components/ProjectAnimations.jsx:95-103 | The list of users starts empty. |
| ChurnViz.Scene.Resize | src/components/ProjectAnimations.jsx:98-101 | Resizing changes only the canvas size. |
| ChurnViz.Scene.Frame | src/components/ProjectAnimations.jsx:115-149 | A frame spawns a user when the draw is above 0.95. Then the index-based `forEach` loop leaves exactly `Pass` of the list. |
| SharePointViz.LayoutSize | src/components/ProjectAnimations.jsx:189-200 | The layout is empty exactly when the canvas is at most 60 pixels wide or high. Otherwise it has four tiles. |
| SharePointViz.LayoutOrder | src/components/ProjectAnimations.jsx:196-199 | The tiles are graph, list, text and pie, in that order, all of size `(size − 60) / 2`. |
| SharePointViz.LayoutGeometry | src/components/ProjectAnimations.jsx:189-199 | Every tile lies inside the 20-pixel margins. The grid ends exactly 20 pixels from the right and bottom edges. Any two tiles are at least 20 pixels apart. |
| SharePointViz.Scene.constructor | src/components/ProjectAnimations.jsx:182-205 | Mounting runs `init`, and `tick` starts at 0. |
| SharePointViz.Scene.Init | src/components/ProjectAnimations.jsx:184-201 | `init` replaces the tiles with the layout for the new size. |
| SharePointViz.Scene.Frame | src/components/ProjectAnimations.jsx:211 | A frame increments `tick` and leaves the tiles unchanged. |
| TitanicViz.PhaseOrder | src/components/ProjectAnimations.jsx:330-360 | The state only moves along sailing → impact → sinking → reset → sailing. |
| TitanicViz.ImpactCondition | src/components/ProjectAnimations.jsx:330-341 | Sailing turns into impact exactly when `shipX + 130` reaches 75% of the width. |
| TitanicViz.ResetRestarts | src/components/ProjectAnimations.jsx:355-360 | Reset puts the ship at −130, with no rotation and no delay, sailing again, in one frame. |
| TitanicViz.XOnlyResetGoesBack | src/components/ProjectAnimations.jsx:330-360 | `shipX` never decreases, except at reset, which sets it to −130. |
| TitanicViz.StepGood | src/components/ProjectAnimations.jsx:330-360 | A frame preserves the invariant that ties `sinkDelay` to the phase. |
| TitanicViz.RunGood | src/components/ProjectAnimations.jsx:330-360 | Any run of frames preserves that invariant. |
| TitanicViz.ImpactCountsFrames | src/components/ProjectAnimations.jsx:342-346 | Each impact frame adds one to `sinkDelay` while it stays at most 40. |
| TitanicViz.ImpactLastsExactly41Frames | src/components/ProjectAnimations.jsx:342-346 | The impact lasts exactly 41 frames: still impact after 40, sinking after 41. |
| TitanicViz.SinkingDescends | src/components/ProjectAnimations.jsx:347-354 | While above the reset depth, sinking drops the ship 0.5 pixels a frame. |
| TitanicViz.FramesToReset | src/components/ProjectAnimations.jsx:351-353 | The least number of frames after which the ship is more than 100 pixels below the canvas. |
| TitanicViz.SinkingReachesReset | src/components/ProjectAnimations.jsx:347-354 | Sinking always ends: after `FramesToReset` frames the ship is in the reset phase. |
| TitanicViz.Scene.constructor | src/components/ProjectAnimations.jsx:287-292 | The ship starts at −100, sailing, with no rotation or delay. |
| TitanicViz.Scene.Resize | src/components/ProjectAnimations.jsx:279-284 | Resizing changes only the canvas size. |
| TitanicViz.Scene.Frame | src/components/ProjectAnimations.jsx:304-360 | A frame advances the wave offset by 0.05 and applies one step of the ship logic. |
| MovieViz.Shown | src/components/ProjectAnimations.jsx:479 | The amount shown is the floor of the price. |
| MovieViz.StepGood | src/components/ProjectAnimations.jsx:473-474 | A frame keeps the price in [49.5, 120.5], already turning back at either end. |
| MovieViz.FramesGood | src/components/ProjectAnimations.jsx:459-474 | Every frame from the start keeps that invariant. |
| MovieViz.ShownRange | src/components/ProjectAnimations.jsx:459-479 | The ticket always shows between $49 and $120. |
| MovieViz.Rising | src/components/ProjectAnimations.jsx:473-474 | Within the bounds, a rising price climbs 0.5 a frame. |
| MovieViz.Falling | src/components/ProjectAnimations.jsx:473-474 | Within the bounds, a falling price drops 0.5 a frame. |
| MovieViz.Period | src/components/ProjectAnimations.jsx:459-474 | The price peaks at 120.5 ($120) after 141 frames and bottoms out at 49.5 ($49) after 283. The animation repeats every 284 frames. |
| MovieViz.Scene.constructor | src/components/ProjectAnimations.jsx:459-460 | The price starts at 50 with a trend of +0.5. |
| MovieViz.Scene.Frame | src/components/ProjectAnimations.jsx:473-479 | A frame applies one price step and returns the amount drawn. |
| YoutubeViz.Increment | src/components/ProjectAnimations.jsx:616 | A frame adds `floor(roll × 50)` views, which is between 0 and 49 for every draw. |
| YoutubeViz.ViewsBounds | src/components/ProjectAnimations.jsx:596-616 | The counter never goes down and gains at most 49 views a frame. |
| YoutubeViz.SmallRollsKeepViews | src/components/ProjectAnimations.jsx:616 | Draws below 0.02 add no views. |
| YoutubeViz.Scene.constructor | src/components/ProjectAnimations.jsx:596 | The counter starts at 1500. |
| YoutubeViz.Scene.Frame | src/components/ProjectAnimations.jsx:616 | A frame adds `Increment(roll)` views. |
| DiabetesViz.NextX | src/components/ProjectAnimations.jsx:559-560 | After a frame the dot is within [0, width]. It stays on the three-pixel grid, and either moves 3 pixels or wraps to 0. |
| DiabetesViz.SweepPosition | src/components/ProjectAnimations.jsx:551-560 | From the left edge, the dot is at `3k` after `k` frames while that fits on the canvas. |
| DiabetesViz.SweepPeriod | src/components/ProjectAnimations.jsx:551-560 | One sweep takes exactly `width / 3 + 1` frames. |
| DiabetesViz.HeartbeatY | src/components/ProjectAnimations.jsx:563-566 | The dot leaves the middle line only inside the dip window. It deviates by at most 40 pixels. |
| DiabetesViz.DipPositions | src/components/ProjectAnimations.jsx:564 | In the first 100-pixel stretch (x < 100), on the three-pixel grid from the left edge, the dot is in the dip exactly at positions 42 to 57. |
| DiabetesViz.DipPositionsSecondStretch | src/components/ProjectAnimations.jsx:564 | In the second stretch (100 ≤ x < 200), on the same grid, the dot is in the dip exactly at positions 141 to 159, so each stretch has its own dip positions. |
| DiabetesViz.Scene.constructor | src/components/ProjectAnimations.jsx:551 | The dot starts at x = 0. |
| DiabetesViz.Scene.Resize | src/components/ProjectAnimations.jsx:544-549 | Resizing keeps the dot where it is until the next frame wraps it. |
| DiabetesViz.Scene.Frame | src/components/ProjectAnimations.jsx:559-566 | A frame moves the dot and returns its height. |
| McqViz.NextScan | src/components/ProjectAnimations.jsx:670 | The beam stays in [0, 100). |
| McqViz.ScanPosition | src/components/ProjectAnimations.jsx:646-670 | After `k` frames the beam is at `2k mod 100`. |
| McqViz.ScanEvenAndPeriodic | src/components/ProjectAnimations.jsx:646-670 | The beam is always at an even offset and repeats every 50 frames. |
| McqViz.Periodic | src/components/ProjectAnimations.jsx:675-683 | The pulse repeats every 60 ticks and the cards every 120. |
| McqViz.Overlap | src/components/ProjectAnimations.jsx:675-683 | The pulse and the cards are drawn together exactly on ticks 61 to 79 of every 120. |
| McqViz.Scene.constructor | src/components/ProjectAnimations.jsx:645-646 | `tick` and `scanY` start at 0. |
| McqViz.Scene.Frame | src/components/ProjectAnimations.jsx:652-683 | A frame increments `tick`, moves the beam, and returns whether the pulse and the cards are drawn. |

## Left out

- **Drawing.** All canvas drawing, colours, fonts, the rAF loop and its cancellation, and the
  resize listeners are left out. Resizing appears only as the `Resize`/`Init` methods.
- **Decorative components.** `MusicViz` has no state beyond drawing. `ThankYouCar`,
  `RockBackground` and `ImpactGraph` are decorative, and the section components (`Hero`,
  `Projects`, `Experience`, …) only lay out content. None of them is part of this model.
- **Drawing-only animation state.** The SharePoint bar, scroll and pie animation inside each tile
  and the Titanic waves are drawing only, and so is the MCQ card orbit. Their trigonometric values
  never feed the modelled state. The Titanic `waveOffset` is kept, as a counter.
- **Video playback.** The `play()` promise and its rejection are left out, and so are `muted`,
  `loop` and `currentTime`. The hover effect is modelled only as the command it issues.
- **React scheduling.** Re-renders and effect re-runs appear only as explicit events: `Render`,
  and `Cleanup` for the interval's cleanup.
- **Timer delays.** `incrementTime = duration / end * 0.8` and the 2000 ms timeout delay only decide
  when callbacks fire. Their order is left free instead.
- **Observer geometry.** The `IntersectionObserver` geometry and the threshold are abstracted to
  each entry's `isIntersecting` flag. The effect re-runs only when the threshold changes, and the
  threshold is constant at every call site.
- **Number formatting.** `toLocaleString` (the YouTube view count) is not modelled; the count is
  kept as a number. `Show` covers only the integers React renders below 10^21.
- **Counter input type.** `parseInt` is applied to a string. The numbers in `src/data.js` reach it
  as their decimal text, which is `Decimal(n)`.
- **Floating point.** The real geometry uses exact reals, not IEEE doubles. The integer-stepped
  quantities and the half-unit movie price are exact in doubles too.
- **Unused or constant fields.** The churn users' `color` field is implied by `churned`. The
  Alzheimer `active` field never changes after `init`. The diabetes `points` array is never used.
- **Error paths.** `ChurnViz` has no null-canvas guard. The other animations return early on a
  null canvas; that path is not modelled.
- Counter.ExactAfterLateTimeout: this is weaker than a promise that the count always ends on the
  exact value. That promise holds only when the timeout fires after the interval has stopped;
  `Counter.TimeoutBeforeLastTickIsInexact` shows an order in which it fails.

## Findings

The count-up never shows. `setHasAnimated(true)` changes a dependency of the effect, so React re-runs
the effect. Before it does, React calls the cleanup of the first run, and that cleanup clears the
interval. The re-run does nothing because `hasAnimated` is now true. What is left is the timeout, so
the counter shows 0 for `duration` milliseconds and then jumps to its value.

| source | as written | input that shows it | evidently intended | confidence | as-written member | corrected member |
|---|---|---|---|---|---|---|
| src/components/Counter.jsx:11-28 | `hasAnimated` is both set in the effect and listed in its dependencies, so the re-run's cleanup clears the interval before its first tick | any stat, e.g. value 98 | count 1, 2, …, `value` on successive ticks, then hold `value` | not executed | Counter.AsWrittenNeverCountsUp | Counter.IntendedCountsUp |

Events that encode each ordering:

- `Counter.AsWrittenOrder` (the order as written): render, cleanup, then ticks.
- `Counter.IntendedOrder` (the intended order): render, then ticks.
