# Warp star field and identity reveal, modelled in Dafny

This project models the two components of the "warp travel" presentation
that hold state-changing logic.

- **WarpCanvas** (`warp_canvas.dfy`, module `WarpCanvas`) models the star field
  behind the intro. It has a fixed pool of 800 stars and a smoothed speed. On
  each animation frame the speed eases toward a target, which is 15 while
  accelerating and the cruising `speed` otherwise. Each star then moves toward
  the viewer by twice the speed. A star that reaches the viewer is recycled to
  the far plane with a new position and colour. Resizing the canvas changes its
  extent but reseeds the pool only when the pool is empty. The renderer is the
  class `StarField`. Its pool is an `array<Star>` updated in place. Seeding is a
  loop (`InitStars`). The per-star step and the smoothing step are pure
  functions that specify `Frame`. The depth-to-size and depth-to-opacity
  formulas (`Size`, `Alpha`) are pure functions about the drawing, which the
  model does not perform.
- **IdentityReveal** (`identity_reveal.dfy`, module `IdentityReveal`) models the
  final card. The class `Typewriter` models the `useTypewriter` hook with its
  cleanup corrected, so that a rerun of the effect also stops a running
  interval. The cleanup as written does not stop it; the finding below records
  this, with `RerunAsWritten`, `TickAsWritten` and `OrphanedIntervalOverwrites`
  modelling the code as written. Each interval
  tick grows a counter by one and shows that many characters of the text. It
  stops on the first tick that reaches the end. The class `Reveal` runs the four
  phases dim → particles → card → text, and decides which of the two cursors
  shows.

Numbers are exact `real`s. Canvas sizes are `nat`s, because a canvas extent is
a whole number of pixels. Every `Math.random()` call is a caller-supplied
sample in [0, 1). Seeding consumes one `Seed` per star (its z, x, y and colour
draws, in call order). A frame is given one `Redraw` per star, which is used
only if that star is recycled. Timers are replaced by events: a phase timer
firing, a typewriter's start delay elapsing, and one interval tick.

Three facts about the code shape the contracts:

- The code never clamps a star's depth `z`. A negative `speed` moves stars away
  from the viewer, and a narrower canvas leaves stars beyond the new far plane.
  So the bound `0 <= z <= width` is proved only under `currentSpeed >= 0`, with
  the width unchanged or grown. (`StarField.Frame`, `StarField.Resize`,
  `StarField.Steady`.)
- The samples are half-open: depth in `[0, w)` and positions in `[-w, w)` and
  `[-h, h)`.
- The lerp factor uses the `accelerating` value that the animation effect
  captured when it started (src/components/WarpCanvas.tsx:80, 150); the effect
  restarts when the flag changes. The model keeps the captured value in
  `StarField.accelerating`, which `StarField.Start` sets.

## Model

| member | source | states |
|---|---|---|
| `WarpCanvas.Spread` | src/components/WarpCanvas.tsx:39-40 | `(r - 0.5) * extent * 2` for a sample `r` in [0, 1) lies in `[-extent, extent)`, and is 0 at r = 0.5 |
| `WarpCanvas.PaletteIndex` | src/components/WarpCanvas.tsx:43 | `floor(r * 6)` is a valid index into the six colours and is the floor of `r * 6` |
| `WarpCanvas.SeedStar` | src/components/WarpCanvas.tsx:37-44 | one seeded star has `prevZ == z`, `0 <= z < w` (z = 0 on a zero-width canvas), `x` in `[-w, w)`, `y` in `[-h, h)` and a palette colour |
| `WarpCanvas.InitStars` | src/components/WarpCanvas.tsx:34-47 | the loop returns exactly `count` stars, the k-th built from the k-th seed, each satisfying the seeding bounds |
| `WarpCanvas.TargetSpeed` | src/components/WarpCanvas.tsx:50 | the target is 15 when accelerating and `speed` otherwise |
| `WarpCanvas.LerpFactor` | src/components/WarpCanvas.tsx:80 | the factor is 0.04 when accelerating and 0.02 otherwise, always strictly between 0 and 1 |
| `WarpCanvas.Lerp` | src/components/WarpCanvas.tsx:80-81 | one smoothing step lands between the old speed and the target, strictly inside when they differ (no overshoot), shrinks the distance to the target by exactly 0.96 or 0.98, and keeps a nonnegative speed nonnegative toward a nonnegative target |
| `WarpCanvas.StepStar` | src/components/WarpCanvas.tsx:98-108 | after one step the depth is positive on a positive-width canvas and never negative; a depth within `[0, w]` stays `<= w` at a nonnegative speed; `prevZ` is positive on a positive-width canvas at a nonnegative speed, so both projections are defined |
| `WarpCanvas.StepRecycles` | src/components/WarpCanvas.tsx:102-108 | a star whose stepped depth is `<= 0` ends at `z == prevZ == w` (zero-length streak), with `x` in `[-w, w)`, `y` in `[-h, h)` and a palette colour |
| `WarpCanvas.StepMoves` | src/components/WarpCanvas.tsx:99-100 | a star that is not recycled ends with `prevZ` equal to its old depth and `z` equal to the old depth minus twice the speed; `x`, `y` and colour are unchanged |
| `WarpCanvas.Size` | src/components/WarpCanvas.tsx:117 | `max(0.5, (1 - z/w) * 3)` is at least 0.5, lies in `[0.5, 3]` for `0 <= z <= w`, is 0.5 at the far plane and 3 at the viewer |
| `WarpCanvas.Alpha` | src/components/WarpCanvas.tsx:118 | `min(1, (1 - z/w) * 1.5)` is at most 1, lies in `[0, 1]` for `0 <= z <= w`, is 0 at the far plane and 1 at the viewer |
| `WarpCanvas.NearerIsBrighter` | src/components/WarpCanvas.tsx:117-118 | a nearer star is drawn at least as large and at least as opaque as a farther one |
| `WarpCanvas.Project` | src/components/WarpCanvas.tsx:111-114 | the perspective projection sends a coordinate of 0 to the canvas centre |
| `WarpCanvas.HasStreak` | src/components/WarpCanvas.tsx:121-125 | no streak is drawn for a star with `z == prevZ` (in particular a just-recycled one) or for a star on the axis |
| `WarpCanvas.ApproachGap` | src/components/WarpCanvas.tsx:81 | after n frames with a fixed target, the distance to the target is the initial distance shrunk n times by 0.96 (accelerating) or 0.98 (cruising) |
| `WarpCanvas.ApproachRisesToward` | src/components/WarpCanvas.tsx:81 | below a fixed target, every frame strictly raises the speed and no frame reaches or passes the target |
| `WarpCanvas.AcceleratedAfterSixtyFrames` | src/components/WarpCanvas.tsx:80-81 | from any speed between 1 and 15, sixty accelerating frames bring the speed above 10 |
| `WarpCanvas.StarField.constructor` | src/components/WarpCanvas.tsx:29-32 | both speed refs start at `speed` and the pool starts empty |
| `WarpCanvas.StarField.SetTarget` | src/components/WarpCanvas.tsx:49-51 | the target speed becomes 15 when accelerating and `speed` otherwise; nothing else changes |
| `WarpCanvas.StarField.Resize` | src/components/WarpCanvas.tsx:60-66 | width and height take the new values; an empty pool is replaced by exactly 800 seeded stars; a nonempty pool is the same array with the same stars; the depth bound survives an unchanged or wider canvas |
| `WarpCanvas.StarField.Start` | src/components/WarpCanvas.tsx:53-69 | the effect captures `accelerating` for its frames and resizes to the viewport, with the pool rules of `Resize` |
| `WarpCanvas.StarField.Frame` | src/components/WarpCanvas.tsx:79-108 | the speed takes one smoothing step; the pool keeps its length and every star is replaced by its own step, exactly once; on a positive-width canvas every depth is positive afterwards; `0 <= z <= w` is preserved at a nonnegative speed; nonnegative speeds plus the depth bound are preserved together |
| `IdentityReveal.Slice` | src/components/IdentityReveal.tsx:23 | `text.slice(0, i)` is a prefix of `text` of length `min(i, |text|)` |
| `IdentityReveal.SliceGrows` | src/components/IdentityReveal.tsx:21-23 | a larger counter shows an extension of what a smaller one showed |
| `IdentityReveal.Typewriter.constructor` | src/components/IdentityReveal.tsx:11-19 | a mounted typewriter shows nothing, is not done and waits for its start delay |
| `IdentityReveal.Typewriter.Configure` | src/components/IdentityReveal.tsx:15-33 | a change of text, speed or start delay clears `displayed` and `isDone` and waits for a new start delay; unchanged arguments change nothing. This is the corrected cleanup, which also stops a running interval; the cleanup as written at line 32 does not (see Findings) |
| `IdentityReveal.Typewriter.DelayElapsed` | src/components/IdentityReveal.tsx:19-21 | the start delay elapsing starts typing from counter 0; at any other time it changes nothing |
| `IdentityReveal.Typewriter.Tick` | src/components/IdentityReveal.tsx:21-27 | while typing, a tick raises the counter by exactly one and shows `text[..min(i, |text|)]`, which extends what was shown by one character until the end; the typewriter is done exactly when the counter reaches the text's length; when not typing a tick changes nothing; under the corrected cleanup of `Configure`, `displayed` always remains a prefix of `text` (see Findings for the code as written) |
| `IdentityReveal.DoneShowsWholeText` | src/components/IdentityReveal.tsx:23-26 | once done, the whole text is shown |
| `IdentityReveal.EmptyTextFinishesAtOnce` | src/components/IdentityReveal.tsx:22-27 | an empty text is done after its first tick, showing the empty string, with the counter at 1 |
| `IdentityReveal.RerunAsWritten` | src/components/IdentityReveal.tsx:29-32 | rerunning the effect as written clears the shown text and the done flag but leaves every running interval running |
| `IdentityReveal.TickAsWritten` | src/components/IdentityReveal.tsx:21-27 | a tick of a running interval shows a prefix of the text that interval captured, whatever the current text |
| `IdentityReveal.OrphanedIntervalOverwrites` | src/components/IdentityReveal.tsx:19-32 | with "ab" typed to "a" and the text then changed to "xyz", the orphaned interval's next tick shows "ab", which is not a prefix of "xyz", and marks the typewriter done |
| `IdentityReveal.Rank` | src/components/IdentityReveal.tsx:56 | the four phases have positions 0 to 3, with dim first |
| `IdentityReveal.Next` | src/components/IdentityReveal.tsx:76-78 | each phase timer moves the phase exactly one position forward |
| `IdentityReveal.EnteredInOrder` | src/components/IdentityReveal.tsx:76-78 | the timers fire in phase order (600 < 1200 < 2000 ms) |
| `IdentityReveal.PhaseAt` | src/components/IdentityReveal.tsx:76-78 | the phase showing at time t was entered at or before t, and the next phase is not entered before t |
| `IdentityReveal.PhaseAtMonotone` | src/components/IdentityReveal.tsx:76-78 | as time passes the phase never moves backward |
| `IdentityReveal.TitleDelay` | src/components/IdentityReveal.tsx:60 | the title starts at once in the text phase and is held back (99999 ms) before it |
| `IdentityReveal.DescriptionDelay` | src/components/IdentityReveal.tsx:61 | in the text phase the description starts after `19 * 60 + 400 = 1540` ms; before it, the delay is 99999 ms |
| `IdentityReveal.Reveal.constructor` | src/components/IdentityReveal.tsx:56-61 | the reveal mounts in the dim phase with both typewriters empty and waiting |
| `IdentityReveal.Reveal.AdvancePhase` | src/components/IdentityReveal.tsx:74-78 | each phase timer moves the phase one step forward, at a later time; entering the text phase restarts both typewriters, and earlier phases leave them alone |
| `IdentityReveal.Reveal.ShownTitle` | src/components/IdentityReveal.tsx:244 | the rendered title is a prefix of "Strategic Navigator", and empty before the text phase |
| `IdentityReveal.Reveal.ShownDescription` | src/components/IdentityReveal.tsx:272 | the rendered description is a prefix of the description text, and empty before the text phase |
| `IdentityReveal.Reveal.TitleCursor` | src/components/IdentityReveal.tsx:245 | the title cursor shows exactly when the phase is text and only part of the title is shown |
| `IdentityReveal.Reveal.DescriptionCursor` | src/components/IdentityReveal.tsx:273 | the description cursor shows exactly when the phase is text, the whole title is shown and only part of the description is; it never shows together with the title cursor |

## Left out

- Canvas drawing is not modelled: the trail fade (alpha 0.08 or 0.15), the centre glow, strokes, arcs and rgba strings (src/components/WarpCanvas.tsx:84-96, 126-138). They leave no state behind. The streak test is modelled as a squared-distance comparison instead of a square root.
- Scheduling is not modelled: `requestAnimationFrame`, the resize listener and teardown (src/components/WarpCanvas.tsx:69, 141-149). A frame is one `Frame` call. The `animate()` call made right after the effect starts (line 144) is the driver's first `Frame` call after `Start`.
- The early return when no canvas or 2-D context is available (src/components/WarpCanvas.tsx:54-58) is not modelled. `Start` assumes a context exists.
- `Math.random()` is not modelled as a generator. Samples are parameters in [0, 1). A frame takes one `Redraw` per star and uses it only on recycle, so the order in which recycled stars consume samples is not modelled.
- IEEE floating point is not modelled. Arithmetic is exact over the reals, with no rounding, infinities or NaN.
- WarpCanvas.Size: requires a positive width, because a zero width gives NaN in the source, which the model does not represent.
- WarpCanvas.Alpha: requires a positive width, for the same reason as `Size`.
- WarpCanvas.Project: requires a nonzero depth, because the source then divides by zero and gets an infinity. After a frame on a positive-width canvas at a nonnegative speed, both depths are positive.
- WarpCanvas.HasStreak: requires nonzero depths, for the same reason as `Project`.
- WarpCanvas.StarField.constructor: the canvas starts at the HTML default size of 300 by 150. The first `Start` overrides it before any star exists.
- Interval periods and start-delay durations are not modelled. The typewriter's `speed` and `startDelay` are kept only as the dependencies whose change restarts it. The particle layer (src/components/IdentityReveal.tsx:39-53, 64-71) and all framer-motion animations are not modelled.
- IdentityReveal.Typewriter.Configure: models the corrected cleanup. The code as written leaves a running interval alive across a rerun, which the model captures only in `RerunAsWritten`, `TickAsWritten` and `OrphanedIntervalOverwrites` (see Findings).
- IdentityReveal.Slice: counts characters, while `text.slice` counts UTF-16 code units. The two agree on the two ASCII texts the screen shows, but not on text outside the Basic Multilingual Plane.
- CockpitScreen.tsx, WarpEntry.tsx and page.tsx are not part of this model. They are layout, one-shot timers and screen routing.

## Findings

| source | as written | input that shows it | evidently intended | confidence | as-written member | corrected member |
|---|---|---|---|---|---|---|
| src/components/IdentityReveal.tsx:29-32 | the effect's cleanup clears only the start-delay timer; the interval's cleanup is returned from the `setTimeout` callback, where nothing calls it, so an interval that is already running survives a change of text, speed or start delay | text "ab" typed as far as "a", then the text becomes "xyz": the old interval's next tick shows "ab" and sets `isDone`, though "ab" is not a prefix of "xyz" | rerunning the effect also clears the running interval, so `displayed` is always a prefix of the current text | high; not executed. In this screen the dependencies change only when the text phase begins, before any start delay has fired, so the screen as shipped does not reach it | `IdentityReveal.OrphanedIntervalOverwrites` | `IdentityReveal.Typewriter.Configure` |
