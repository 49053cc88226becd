# jquery.vizi visibility engine, in Dafny

A model of the visibility engine of the jQuery plugin `vizi`
(`src/jquery.vizi.js`). For one tracked element, the plugin takes the
container's bounding rectangle and the element's, widens the element's by a
configured offset, and derives which of the element's edges lie inside the
container, whether the element counts as visible, how much of it is visible
on each axis (`percent`) and how far it has travelled through the container
(`progress`). On every scroll, resize or manual refresh it recomputes that
state and fires `onEnter`, `onLeave` and `onVisible` according to the change
of visibility.

The project has four modules:

- `Wrappers` (`wrappers.dfy`): the `Option` type.
- `Geometry` (`geometry.dfy`): rectangles, offsets, edge flags, the
  visibility policy, percent and progress, as pure functions with lemmas.
- `Dispatch` (`dispatch.dfy`): which callbacks one tick fires, and what a
  series of ticks fires.
- `Vizi` (`vizi.dfy`): settings, the offset arguments, the pure `Recompute`
  that specifies the pipeline, and the class `Plugin`, whose fields are the
  element's stored data and whose methods overwrite them in the order the
  plugin does. Callback invocations are recorded in the field `calls`
  (hook and payload), oldest first.

Numbers are `real`. The behaviour follows the code, including its quirks:

- the offset-adjusted width grows by `offset.bottom`, not `offset.right`, so
  the adjusted rectangle stays consistent (`right == left + width`) only when
  the offset's right and bottom agree (`Geometry.ApplyOffset`);
- the partial vertical percents do not subtract the container's top, while
  the horizontal ones subtract its left. So percent.x always lies in [0,1]
  for well-formed rectangles (`Geometry.PercentXInUnit`), but percent.y does
  so only when the container's top is 0: `Geometry.PercentYExceedsOneOffOrigin`
  gives a container whose percent.y is 1.5;
- the overflow ("straddle") tests compare with 0 and the container's width
  or height, not with its left or top. Percent equals the visible share of
  the element, and the partial policy's visibility equals overlap, only for
  a container at the origin. `Geometry.StraddleOffOriginHidesOverlap` gives
  a container away from the origin that overlaps the element by a positive
  area while the element counts as hidden and percent.x is 0;
- percent is never clamped; only progress is;
- zero extents are not special-cased by the code. The model requires every
  divisor of the percent and progress ratios to be non-zero, even in the
  regimes that do not divide;
- every recompute rebuilds the offset from the `offset` setting, so a value
  stored through the public `offset(args)` is discarded by the next recompute;
- a number passed to the public `offset(args)` is ignored: the guard returns
  the current offset for anything but a plain object, so the number branch
  after it is never taken;
- an object given as the `offset` setting makes every recompute throw (the
  code reads the fields of an undefined argument); `SettingsOffset` returns
  None and the engine requires it to be Some;
- at initialisation the state is recomputed and then the callbacks run after
  a second recompute; with unchanged geometry the visibility cannot change,
  so `onEnter` never fires at initialisation, only `onVisible`.

## Model

| member | source | states |
|---|---|---|
| `Geometry.WindowRect` | src/jquery.vizi.js:178-185 | the window's rectangle is well-formed, at the origin, with the viewport's width and height |
| `Geometry.ApplyOffset` | src/jquery.vizi.js:248-255 | for a well-formed element, the adjusted height stays consistent, and the adjusted width does exactly when offset.right equals offset.bottom |
| `Geometry.NumberOffset` | src/jquery.vizi.js:219-222 | a number N is stored as -N on the left and top and N on the right and bottom |
| `Geometry.NumberOffsetExpands` | src/jquery.vizi.js:219-222 | a numeric offset N moves every edge outward by N and grows width and height by 2N, keeping well-formed rectangles well-formed |
| `Geometry.ComputePosition` | src/jquery.vizi.js:274-284 | top in view iff c.top <= e.top < c.top + c.height; bottom iff c.bottom - c.height < e.bottom < c.bottom; left and right alike with the width; all is the conjunction |
| `Geometry.ComputeVisible` | src/jquery.vizi.js:309-332 | without partial visibility, visible iff all edges are in view; under either policy, all edges in view imply visible |
| `Geometry.VisibleIffOverlap` | src/jquery.vizi.js:309-326 | with partial visibility, well-formed rectangles of positive size and a container at the origin, visible iff the two rectangles share an area of positive size |
| `Geometry.AllOrNothingIsStricter` | src/jquery.vizi.js:309-329 | an element visible under the all-or-nothing policy is visible under the partial one |
| `Geometry.PercentX` | src/jquery.vizi.js:394-435 | the regimes of percent.x: both edges in view gives 1, overflow on both sides with ignoreOverflow gives 1, neither edge in view without overflow gives 0; the value of every regime is characterised by PercentXIsVisibleShare and bounded by PercentXInUnit |
| `Geometry.PercentY` | src/jquery.vizi.js:441-482 | the same regimes for percent.y; characterised by PercentYIsVisibleShare and bounded by PercentYInUnit |
| `Geometry.PercentXIsVisibleShare` | src/jquery.vizi.js:394-435 | for well-formed rectangles and a container at x = 0, percent.x is the visible width over the element's width, or 1 when the element overflows both sides and ignoreOverflow is set |
| `Geometry.PercentYIsVisibleShare` | src/jquery.vizi.js:441-482 | the same for percent.y, for a container at y = 0 |
| `Geometry.PercentXInUnit` | src/jquery.vizi.js:389-435 | for well-formed rectangles of positive element width, percent.x lies in [0,1] wherever the container sits |
| `Geometry.PercentYInUnit` | src/jquery.vizi.js:436-482 | for well-formed rectangles and a container at y = 0, percent.y lies in [0,1] |
| `Geometry.PercentYExceedsOneOffOrigin` | src/jquery.vizi.js:450-459 | a well-formed container whose top is not 0 gives a percent.y of 1.5 |
| `Geometry.StraddleOffOriginHidesOverlap` | src/jquery.vizi.js:315-323 | a well-formed container at x = 100 overlaps a well-formed element by a positive area, yet the partial policy calls the element hidden and percent.x is 0 |
| `Geometry.NormalizePercent` | src/jquery.vizi.js:483-496 | the result lies in [0,1], equals the input on [0,1], is 0 iff the input is at most 0 and 1 iff it is at least 1 |
| `Geometry.NormalizeMonotone` | src/jquery.vizi.js:483-496 | the clamp preserves order |
| `Geometry.Progress` | src/jquery.vizi.js:361-387 | progress on an axis lies in [0,1] |
| `Geometry.ProgressX` | src/jquery.vizi.js:375-387 | progress.x lies in [0,1] |
| `Geometry.ProgressY` | src/jquery.vizi.js:361-373 | progress.y lies in [0,1] |
| `Geometry.ProgressZeroIff` | src/jquery.vizi.js:369-370 | with positive combined extents, progress is 0 iff the element's far edge has not passed the container's near edge |
| `Geometry.ProgressOneIff` | src/jquery.vizi.js:383-384 | with positive combined extents, progress is 1 iff the far edge is at least the combined extents past the near edge |
| `Geometry.ProgressMonotone` | src/jquery.vizi.js:369-370 | progress does not decrease as the element's far edge moves forward |
| `Geometry.ProgressYFromContainerTop` | src/jquery.vizi.js:361-373 | progress.y is 0 iff element.bottom <= container.top, and does not decrease as element.bottom grows |
| `Dispatch.Fired` | src/jquery.vizi.js:574-594 | onEnter fires iff visibility changed to true, onLeave iff it changed to false (each only if it is a function), onVisible iff visible; no hook twice; onVisible last |
| `Dispatch.RunAppend` | src/jquery.vizi.js:553-594 | one more tick appends Fired of the last visibility and the new one; since each event appends exactly that, successive events fire the hooks of Run |
| `Dispatch.RunTransitions` | src/jquery.vizi.js:553-588 | over any series of ticks, enters plus leaves equal the number of visibility changes, and enters minus leaves equal the change from the first state to the last |
| `Dispatch.RunVisibleTicks` | src/jquery.vizi.js:589-594 | over any series of ticks, onVisible fires once per visible tick |
| `Vizi.SettingsOffset` | src/jquery.vizi.js:207-232 | the rebuilt offset is symmetric (left = top = -right, right = bottom); a number N gives right N; a non-numeric non-object gives 0; an object or undefined setting throws (None) |
| `Vizi.UpdateOffset` | src/jquery.vizi.js:663-685 | only a plain object changes the stored offset, field by field where it carries a number, left and top negated; anything else, a number included, leaves it as it was |
| `Vizi.DefaultsKeepRectangle` | src/jquery.vizi.js:12-40 | under the default settings the rebuilt offset is zero and the element's rectangle is left as it is |
| `Vizi.UniformObjectIsNumber` | src/jquery.vizi.js:679-684 | an object with all four fields N stores what the number setting N stands for |
| `Vizi.Recompute` | src/jquery.vizi.js:502-512 | the offset comes from the settings alone; all edges in view imply visible; without partial visibility visible iff all; progress in [0,1] |
| `Vizi.WindowRecompute` | src/jquery.vizi.js:173-200 | in the window with a numeric offset, both percents lie in [0,1] and, under partial visibility, visible iff the element overlaps the window |
| `Vizi.MakePayload` | src/jquery.vizi.js:559-572 | the payload carries position and visible, percent iff percentVisible, progress iff percentProgress, with the stored values |
| `Vizi.Calls` | src/jquery.vizi.js:578-594 | one call per fired hook, in order, all with the same payload |
| `Vizi.Plugin.constructor` | src/jquery.vizi.js:68-124 | the state is the recompute of the given geometry, and the initial event fires only onVisible |
| `Vizi.Plugin.SetContainerData` | src/jquery.vizi.js:173-200 | stores the container's rectangle |
| `Vizi.Plugin.SetElementOffset` | src/jquery.vizi.js:207-232 | stores the offset rebuilt from the setting |
| `Vizi.Plugin.SetElementData` | src/jquery.vizi.js:239-259 | stores the element's rectangle with the stored offset applied |
| `Vizi.Plugin.SetElementPosition` | src/jquery.vizi.js:267-287 | stores the edge flags of the stored rectangles |
| `Vizi.Plugin.SetElementVisibility` | src/jquery.vizi.js:294-333 | stores the visibility under the configured policy |
| `Vizi.Plugin.SetElementPercent` | src/jquery.vizi.js:339-348 | stores percent.x and percent.y |
| `Vizi.Plugin.SetElementProgress` | src/jquery.vizi.js:350-359 | stores progress.x and progress.y, both in [0,1] |
| `Vizi.Plugin.UpdateElementVisibility` | src/jquery.vizi.js:502-512 | the new state is Recompute of the settings and the two rectangles, whatever the stored offset was |
| `Vizi.Plugin.Event` | src/jquery.vizi.js:545-601 | recomputes, appends the calls Fired gives for the old and new visibility with the payload, and returns the payload only for a refresh; with RunAppend, the hooks recorded by successive events are those of Run over the visibilities |
| `Vizi.Plugin.Refresh` | src/jquery.vizi.js:613-617 | recomputes, fires the callbacks and returns the payload |
| `Vizi.Plugin.Visible` | src/jquery.vizi.js:624-630 | returns the stored visibility |
| `Vizi.Plugin.Percent` | src/jquery.vizi.js:638-654 | returns percent.x for 'x', percent.y for 'y', both otherwise |
| `Vizi.Plugin.Offset` | src/jquery.vizi.js:663-685 | the stored offset becomes UpdateOffset of the old one; returns the old offset unless the argument is a plain object |

## Left out

- Reading the layout: `getBoundingClientRect` and the window's width and height (src/jquery.vizi.js:173-200, 244) are parameters of the recompute; the window's rectangle is `WindowRect`.
- Animation-frame scheduling, throttling and the global `frame` flag (src/jquery.vizi.js:42, 128-166, 600), and the DOM event wiring of `_bindEvents` (519-535): timing and event plumbing, not geometry.
- The jQuery plugin wrapper, its per-element instance cache and the merge of options with defaults (src/jquery.vizi.js:54, 690-714): library glue; `Settings` is the merged result and `Defaults` the defaults.
- JavaScript coercion: numeric strings (which make the offset arithmetic concatenate strings), `null`, booleans and arrays as offsets, and the prototype test for plain objects; `OffsetArg` classifies the value by shape instead.
- NaN and Infinity. The code divides by the element's extent only for one edge in view (src/jquery.vizi.js:407, 411, 454, 458) and for an overflow ratio that is not ignored (426, 473). It divides by the combined extents for progress (369, 383). As a modelling choice, `Vizi.Recompute` and the methods that divide require all these divisors to be non-zero on every input. So the model leaves out a zero-width or zero-height element even in the regimes where the code returns 1 or 0 without dividing.
- The callbacks' own behaviour and the binding of `this` to the element (src/jquery.vizi.js:580, 586, 593): a callback is recorded as an entry of `calls`; one that throws or calls back into the plugin is not modelled.
- Aliasing: the public `offset()` returns the stored offset object itself, and the payload shares the stored position object; the model hands out values.
- Vizi.Plugin.constructor: the two layout reads of initialisation (the first recompute and the one inside the initial event) are given the same rectangles.
