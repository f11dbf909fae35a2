# Spring-animation core of a screen-recording editor, in Dafny

This project models the three pieces of logic behind the editor's animation
settings:

- **Easing catalog and spring evaluator** (`anim.dfy`, module `Anim`): the three
  polynomial curve easings, the curve and spring-physics preset tables, and the
  shell of `simulateSpring` (clamping of the normalised time, the exact terminal
  value, the choice of damping regime) together with `createSpringEasing`.
- **Animation-settings store** (`animation_store.dfy`, module `AnimationStore`):
  the class `AnimationSettings` holding the cursor and zoom spring records and the
  motion-blur record, and the preset/custom rule its updates follow: copy the
  preset named by the style, assign the supplied fields, and mark the record
  `custom` when numbers arrive without a style.
- **Frame slice and canvas solver** (`frame_store.dfy`, module `FrameStore`): the
  class `FrameState` with `recalculateCanvasDimensions` (fallback 1920x1080, fit
  by width or height, round, bump odd sizes to even), `setAspectRatio` and
  `updateFrameStyle`. The aspect-ratio text is split on `:` and its pieces read as
  decimal numbers.

`wrappers.dfy` holds the `Option` type used for the fields a partial update may
leave out and for the possibly unknown screen size.

JavaScript numbers are exact reals (`real`) in the easings and the store, and
integers in the canvas solver. `Math.round` is `floor(x + 1/2)`, which rounds
ties toward +infinity as JavaScript does. The aspect comparison
`ratioW/ratioH > screenW/screenH` is specified by cross-multiplying;
`SourceArithmeticAgrees` proves that the source's quotient form gives the same
branch and the same fitted values, and `RecalculateCanvasDimensions` is written
in that quotient form.

Where the design description and the code differ, the model follows the code:

- The store's spring record has only `style`, `mass`, `tension` and `friction`.
  The custom rule looks at those three numbers only, not at a transition duration.
- `custom` is itself a key of the store's preset table. Selecting it copies 1/170/26.
- A named style does not always mean preset numbers. One update carrying a style
  and numbers keeps the style with the overridden numbers (`MixedUpdateKeepsNamedStyle`).
  The tag stays honest only across updates that do not mix the two (`UnmixedSessionKeepsTagHonest`).
  The panel sends only such updates.
- Canvas dimensions are not always positive. A very wide or very tall target
  rounds the other dimension to 0, and 0 is even, so it is kept. For example,
  10000:1 on a 1920x1080 screen gives 1920x0 (`ExtremeRatioGivesZeroHeight`).
  `FittedPositiveWhen` states exactly when the fitted dimension is positive.
- The canvas does not always fit within the screen, although the code's comment
  promises it. Rounding an odd fitted side up to even can exceed an odd screen side:
  16:9 on a 1366x767 screen fits to 1364x767, and the canvas becomes 1364x768
  (`OddScreenSideOvershoots`). On a screen with even sides the canvas always fits
  (`EvenScreenContainsCanvas`).
- A malformed aspect ratio raises no error in the code. The model assumes the
  ratio is empty or two positive decimal numbers (`Solvable`, `FrameState.Valid`).
  The code itself does not check this.

## Model

| member | source | states |
|---|---|---|
| `Anim.EaseInOutCubicLandmarks` | src/lib/anim.ts:64-66 | easeInOutCubic maps 0 to 0, 1 to 1 and 0.5 to 0.5 |
| `Anim.EaseInOutCubicSymmetric` | src/lib/anim.ts:64-66 | for every t, easeInOutCubic(1 - t) = 1 - easeInOutCubic(t): each piece mirrors the other about (0.5, 0.5) |
| `Anim.EaseInOutQuintLandmarks` | src/lib/anim.ts:68-75 | easeInOutQuint maps 0 to 0, 1 to 1 and 0.5 to 0.5 |
| `Anim.EaseInOutQuintMirror` | src/lib/anim.ts:71-74 | for t >= 0.5 the second piece 0.5*(2t-2)^5 + 1 equals 1 - (2-2t)^5/2 |
| `Anim.EaseOutQuintEndpoints` | src/lib/anim.ts:77-79 | easeOutQuint maps 0 to 0 and 1 to 1 |
| `Anim.EaseOutQuintMonotone` | src/lib/anim.ts:77-79 | easeOutQuint is non-decreasing on [0, 1] and stays within [0, 1] there |
| `Anim.EasingPresetsEndpoints` | src/lib/anim.ts:87-91 | every curve preset (smooth, balanced, dynamic) starts at 0 and lands on 1 |
| `Anim.RegimeMatchesDampingRatio` | src/lib/anim.ts:24-43 | for positive mass and tension the branch taken is underdamped, critical or overdamped exactly when zeta = friction/(2*sqrt(tension*mass)) is below, equal to or above 1 |
| `Anim.RegimeOverZeroProduct` | src/lib/anim.ts:25-43 | over a zero tension*mass, the sign of the zero and of friction decide the branch: zeta is -Infinity (underdamped) or +Infinity or NaN (last branch) |
| `Anim.Clamp01` | src/lib/anim.ts:28 | the clamped time lies in [0, 1], equals t inside it, 0 below and 1 above |
| `Anim.SimulateSpring` | src/lib/anim.ts:17-52 | for every t >= 1 the result is `to` exactly, whatever the config; below 1 it is the regime formula at the clamped time |
| `Anim.SpringSeesClampedTime` | src/lib/anim.ts:28-29 | the result at t equals the result at the clamped t; every t < 0 behaves like t = 0 |
| `Anim.CreateSpringEasing` | src/lib/anim.ts:54-60 | the bound easing at t equals simulateSpring at t with the bound from, to and config, for every t |
| `AnimationStore.ApplyUpdate` | src/store/slices/animationSlice.ts:39-50 | the three steps (preset copy, assign, custom mark) yield `Updated`: each supplied number wins, else the copied preset's, else the old; the style is the supplied one, else `custom` when numbers came, else the old |
| `AnimationStore.AnimationSettings.constructor` | src/store/slices/animationSlice.ts:12-28 | cursor and zoom start at style `default` with 1/170/26; motion blur starts disabled with amount 50, cursor 70, zoom 100, pan 100 |
| `AnimationStore.AnimationSettings.UpdateMotionBlur` | src/store/slices/animationSlice.ts:32-35 | each supplied field is written verbatim with no clamping, the others keep their values, and both spring records are unchanged |
| `AnimationStore.AnimationSettings.UpdateCursorAnimation` | src/store/slices/animationSlice.ts:36-51 | the cursor record becomes `Updated` of its old value; the zoom and motion-blur records are unchanged |
| `AnimationStore.AnimationSettings.UpdateZoomAnimation` | src/store/slices/animationSlice.ts:52-64 | the zoom record becomes `Updated` of its old value; the cursor and motion-blur records are unchanged |
| `AnimationStore.SelectingPresetCopiesIt` | src/store/slices/animationSlice.ts:39-43 | an update carrying only a known non-empty style s leaves the preset's numbers and style s |
| `AnimationStore.SelectingCustomResets` | src/store/slices/animationSlice.ts:9 | selecting `custom` resets the numbers to 1/170/26 because `custom` is a key of the table |
| `AnimationStore.PresetWithOverrides` | src/store/slices/animationSlice.ts:39-50 | with a known style and overrides, each override wins, unsupplied numbers take the preset's values, and the style stays the given one |
| `AnimationStore.NumbersWithoutStyleMarkCustom` | src/store/slices/animationSlice.ts:43-50 | numbers without a style replace the supplied fields, keep the rest and set the style to `custom` |
| `AnimationStore.UnknownStyleStoredVerbatim` | src/store/slices/animationSlice.ts:39-47 | an unknown or empty style copies nothing and is stored as given; the custom mark does not fire |
| `AnimationStore.EmptyUpdateChangesNothing` | src/store/slices/animationSlice.ts:39-50 | an empty partial leaves the record unchanged |
| `AnimationStore.UpdateIdempotent` | src/store/slices/animationSlice.ts:39-50 | applying the same partial twice gives the same record as applying it once |
| `AnimationStore.UnmixedUpdateKeepsTagHonest` | src/store/slices/animationSlice.ts:36-50 | an update that does not mix a style with numbers keeps "a named preset style holds that preset's numbers" |
| `AnimationStore.UnmixedSessionKeepsTagHonest` | src/store/slices/animationSlice.ts:36-50 | any series of such updates from an honest record ends with an honest record |
| `AnimationStore.MixedUpdateKeepsNamedStyle` | src/store/slices/animationSlice.ts:39-50 | {style: gentle, tension: 300} from the initial record gives gentle with 1/300/14, a named style whose numbers differ from its preset |
| `AnimationStore.WorkedSessions` | src/store/slices/animationSlice.ts:36-51 | from the initial record: gentle gives 1/120/14; gentle then tension 300 gives custom 1/300/14; gentle with friction 99 gives gentle 1/120/99 |
| `AnimationStore.PanelPresetsMatchStoreTable` | src/lib/anim.ts:97-104 | the panel's presets are exactly default, gentle, wobbly, stiff and slow; each has the same numbers in the store's table, so selecting it copies a preset |
| `FrameStore.Split` | src/store/slices/frameSlice.ts:40 | splitting text on a separator yields at least one piece |
| `FrameStore.SplitJoin` | src/store/slices/frameSlice.ts:40 | the pieces join back to the text and none holds the separator |
| `FrameStore.JoinSplit` | src/store/slices/frameSlice.ts:40 | splitting undoes joining separator-free pieces |
| `FrameStore.DecimalRoundTrip` | src/store/slices/frameSlice.ts:40 | reading the decimal digits of n gives n |
| `FrameStore.ParseFormatRatio` | src/store/slices/frameSlice.ts:40 | reading the text "W:H" gives back W and H |
| `FrameStore.Round` | src/store/slices/frameSlice.ts:48 | Math.round gives the integer r with x - 1/2 < r <= x + 1/2 |
| `FrameStore.FitToScreen` | src/store/slices/frameSlice.ts:46-52 | when the target is wider (ratioW*screenH > ratioH*screenW) the width is the screen width and the height is at most the screen height; otherwise the height is the screen height and the width is at most the screen width |
| `FrameStore.MakeEven` | src/store/slices/frameSlice.ts:55-58 | the result is even and is n or n + 1 |
| `FrameStore.CanvasFor` | src/store/slices/frameSlice.ts:30-59 | both dimensions are even; no screen or an empty ratio gives exactly 1920x1080; otherwise each dimension is the fitted value or one more |
| `FrameStore.SourceArithmeticAgrees` | src/store/slices/frameSlice.ts:41-52 | comparing the quotients ratioW/ratioH and screenW/screenH agrees with the cross-multiplied test, and the source's divide and multiply give the fitted values |
| `FrameStore.FittedPositiveWhen` | src/store/slices/frameSlice.ts:46-52 | the rounded dimension is positive exactly when 2*screenW*ratioH >= ratioW (fit by width) or 2*screenH*ratioW >= ratioH (fit by height) |
| `FrameStore.ExtremeRatioGivesZeroHeight` | src/store/slices/frameSlice.ts:46-58 | 10000:1 on a 1920x1080 screen fits by width and gives 1920x0 |
| `FrameStore.OddScreenSideOvershoots` | src/store/slices/frameSlice.ts:46-58 | 16:9 on a 1366x767 screen fits by height to 1364x767, and the even bump makes the canvas 1364x768, taller than the screen |
| `FrameStore.EvenScreenContainsCanvas` | src/store/slices/frameSlice.ts:27-58 | on a screen with positive even sides and a positive ratio, neither canvas dimension exceeds the screen's |
| `FrameStore.PortraitOnFullHd` | src/store/slices/frameSlice.ts:46-58 | a 1920x1080 screen with 9:16 fits by height and gives 608x1080, since Math.round(607.5) is 608 |
| `FrameStore.LandscapeOnFullHd` | src/store/slices/frameSlice.ts:22 | the initial ratio 16:9 is well formed and fills a 1920x1080 screen exactly |
| `FrameStore.FrameState.constructor` | src/store/slices/frameSlice.ts:6-23 | the initial frame state has the given styles and ratio 16:9 |
| `FrameStore.FrameState.RecalculateCanvasDimensions` | src/store/slices/frameSlice.ts:30-59 | only the canvas changes, and it becomes `CanvasFor` of the screen size and ratio |
| `FrameStore.FrameState.SetAspectRatio` | src/store/slices/frameSlice.ts:75-81 | the ratio is stored, then the canvas is recomputed from it; styles and screen size are unchanged |
| `FrameStore.FrameState.UpdateFrameStyle` | src/store/slices/frameSlice.ts:63-68 | each supplied style field is written, the others and the background are unchanged; the ratio and canvas are untouched |
| `FrameStore.RecalculateIsIdempotent` | src/store/slices/frameSlice.ts:30-59 | recomputing the canvas a second time gives the same canvas |

## Left out

- The damped-oscillator formulas of `simulateSpring` (src/lib/anim.ts:31-51) use `exp`, `sqrt`, `sin` and `cos` over IEEE doubles. They have no exact counterpart. The evaluator receives them as one function parameter of regime, config, clamped time, `from` and `to`.
- SimulateSpring: does not state that the value at t = 0 is `from`, because that depends on the formulas above.
- `RegimeOf` picks a branch for configs whose tension times mass is not positive, following the source's tests on IEEE values. A negative product gives NaN, which takes the last branch. A zero product is a signed zero: -0 when one factor is negative. A non-zero friction then makes zeta -Infinity (first branch) or +Infinity (last branch), by sign. The NaN and Infinity values themselves are not modelled, and neither is a factor that is itself -0.
- A partial field given explicitly as `undefined` (for example `{mass: undefined}`) is treated as left out: the field keeps its old value. In the source, `Object.assign` copies that property and overwrites the field with `undefined` (src/store/slices/animationSlice.ts:34, :43, :57; src/store/slices/frameSlice.ts:65). The panels send only defined values.
- JavaScript `Number()` leniency is not modelled: surrounding whitespace, exponents, hexadecimal, and the empty piece read as 0. Only pieces of decimal digits are read.
- IEEE rounding of the quotients in the canvas solver is not modelled. Near a .5 tie, double arithmetic may round differently from the exact model.
- `_ensureActivePresetIsWritable`, `updateBackground`, `WALLPAPERS` and `DEFAULTS` are not part of this model. Their code or their values are not visible. The initial frame styles, screen size and canvas are therefore constructor parameters.
- The store plumbing (zustand `set`, immer drafts, `useShallow`) and concurrency: each action is one atomic method on a single-owner object.
- The React panels, apart from what they send: a style alone or one field alone (`UnmixedPatch`).
- The display names in `SPRING_PHYSICS_PRESETS` are kept but nothing is stated about them.
